/** split_html_rows and serialize_html_rows: the rows of an HTML table body, with the section each row is in. */
module TableRows {
  import opened Options
  import opened Text

  /** A row: "thead", "tbody", "tfoot" or "" for its section, and its markup. */
  type Row = (string, string)

  const SECTIONS := ["thead", "tbody", "tfoot"]

  datatype Match = NoMatch | Wrap(name: string, closing: bool, end: nat) | Tr(end: nat)

  /** After a tag name: a word boundary, then anything up to the first `>`; where that tag ends. */
  function TagEnd(s: string, name: nat): (r: Option<nat>)
    requires name <= |s|
    ensures r.Some? ==> name < r.value <= |s|
  {
    if name < |s| && IsWordChar(s[name]) then None
    else
      var g := Find(s[name..], ">");
      if g.Some? then Some(name + g.value + 1) else None
  }

  predicate StartsWith(s: string, lower: string) {
    |lower| <= |s| && Lower(s[..|lower|]) == lower
  }

  function WrapAt(s: string, closing: bool, name: string): (m: Match)
    ensures m.Wrap? ==> 0 < m.end <= |s|
    ensures !m.Tr?
  {
    var open := (if closing then "</" else "<") + name;
    if StartsWith(s, open) && TagEnd(s, |open|).Some? then Wrap(name, closing, TagEnd(s, |open|).value) else NoMatch
  }

  function TrAt(s: string): (m: Match)
    ensures m.Tr? ==> 0 < m.end <= |s|
    ensures !m.Wrap?
  {
    if StartsWith(s, "<tr") && TagEnd(s, 3).Some? then
      var open := TagEnd(s, 3).value;
      var close := Find(Lower(s[open..]), "</tr>");
      if close.Some? then Tr(open + close.value + 5) else NoMatch
    else NoMatch
  }

  /** The pattern of section tags and rows, matched at the start of s. */
  function MatchStart(s: string): (m: Match)
    ensures m.Wrap? || m.Tr? ==> 0 < m.end <= |s|
  {
    if WrapAt(s, true, "thead").Wrap? then WrapAt(s, true, "thead")
    else if WrapAt(s, true, "tbody").Wrap? then WrapAt(s, true, "tbody")
    else if WrapAt(s, true, "tfoot").Wrap? then WrapAt(s, true, "tfoot")
    else if WrapAt(s, false, "thead").Wrap? then WrapAt(s, false, "thead")
    else if WrapAt(s, false, "tbody").Wrap? then WrapAt(s, false, "tbody")
    else if WrapAt(s, false, "tfoot").Wrap? then WrapAt(s, false, "tfoot")
    else TrAt(s)
  }

  // ---- What a row and a section tag are ----

  /** s begins with a row, which goes up to `end`: `<tr ...>...</tr>`, in letters of either case. */
  ghost predicate BeginsRow(s: string, end: nat) {
    Element(Lower(s), "<tr", "</tr>", end)
  }

  /** s begins with the opening or closing tag of a section, which goes up to `end`. */
  ghost predicate BeginsWrap(s: string, name: string, closing: bool, end: nat) {
    name in SECTIONS && end > 0 && Opens(Lower(s), (if closing then "</" else "<") + name, end - 1)
  }

  ghost predicate BeginsMatch(s: string, m: Match) {
    match m
    case NoMatch => false
    case Wrap(name, closing, end) => BeginsWrap(s, name, closing, end)
    case Tr(end) => BeginsRow(s, end)
  }

  lemma LowerSlices(s: string, from: nat, to: nat)
    requires from <= to <= |s|
    ensures Lower(s[from..to]) == Lower(s)[from..to]
  {
  }

  lemma StartsWithIff(s: string, lower: string)
    ensures StartsWith(s, lower) <==> At(Lower(s), lower, 0)
  {
    if |lower| <= |s| { LowerSlices(s, 0, |lower|); }
  }

  lemma LowerKeepsMark(s: string, j: nat)
    ensures At(s, ">", j) <==> At(Lower(s), ">", j)
  {
    if j < |s| { assert s[j..j + 1] == [s[j]] && Lower(s)[j..j + 1] == [Lower(s)[j]]; }
  }

  /** The opening tag of this name, as TagEnd finds it. */
  lemma TagEndIff(s: string, name: string, g: nat)
    requires |name| <= |s|
    ensures TagEnd(s, |name|) == Some(g + 1) <==> FirstFrom(Lower(s), ">", |name|, g) && !IsWordChar(Lower(s)[|name|])
  {
    FindIsFirst(s, ">", |name|);
    forall j: nat ensures At(s, ">", j) <==> At(Lower(s), ">", j) { LowerKeepsMark(s, j); }
    hide Find;
    assert FirstFrom(s, ">", |name|, g) <==> FirstFrom(Lower(s), ">", |name|, g);
    if |name| < |s| { assert IsWordChar(s[|name|]) <==> IsWordChar(Lower(s)[|name|]); }
  }

  lemma WrapIff(s: string, closing: bool, name: string, end: nat)
    ensures
      var open := (if closing then "</" else "<") + name;
      WrapAt(s, closing, name) == Wrap(name, closing, end) <==> end > 0 && Opens(Lower(s), open, end - 1)
  {
    var open := (if closing then "</" else "<") + name;
    StartsWithIff(s, open);
    if |open| <= |s| && end > 0 { TagEndIff(s, open, end - 1); }
    hide StartsWith, TagEnd;
  }

  lemma TrIff(s: string, end: nat)
    ensures TrAt(s) == Tr(end) <==> Element(Lower(s), "<tr", "</tr>", end)
  {
    hide StartsWith, TagEnd, Find, FirstFrom, IsWordChar;
    var t := Lower(s);
    StartsWithIff(s, "<tr");
    TrAtParts(s, end);
    if StartsWith(s, "<tr") {
      forall g: nat ensures TagEnd(s, 3) == Some(g + 1) <==> Opens(t, "<tr", g) { TagEndIff(s, "<tr", g); }
      if TagEnd(s, 3).Some? {
        var open := TagEnd(s, 3).value;
        LowerSlices(s, open, |s|);
        assert s[open..|s|] == s[open..] && t[open..|s|] == t[open..];
        FindIsFirst(t, "</tr>", open);
        assert Opens(t, "<tr", open - 1);
      }
    }
  }

  lemma CharAt(t: string, lit: string, i: nat)
    requires At(t, lit, 0) && i < |lit|
    ensures i < |t| && t[i] == lit[i]
  {
    assert t[..|lit|][i] == t[i];
  }

  /** Two characters tell the names apart. */
  lemma NamesDiffer(t: string, closing: bool, name: string)
    requires name in SECTIONS && At(t, (if closing then "</" else "<") + name, 0)
    ensures |t| > 3 && (closing <==> t[1] == '/') && t[if closing then 3 else 2] == name[1]
  {
    var lit := (if closing then "</" else "<") + name;
    CharAt(t, lit, 1);
    CharAt(t, lit, 2);
    CharAt(t, lit, 3);
  }

  lemma WrapFound(s: string, closing: bool, name: string)
    requires name in SECTIONS && WrapAt(s, closing, name).Wrap?
    ensures
      var m, t := WrapAt(s, closing, name), Lower(s);
      && m == Wrap(name, closing, m.end) && BeginsWrap(s, name, closing, m.end)
      && |t| > 3 && (closing <==> t[1] == '/') && t[if closing then 3 else 2] == name[1]
  {
    hide StartsWith, TagEnd;
    WrapIff(s, closing, name, WrapAt(s, closing, name).end);
    NamesDiffer(Lower(s), closing, name);
  }

  lemma RowFound(s: string)
    requires TrAt(s).Tr?
    ensures BeginsRow(s, TrAt(s).end) && |s| > 2 && Lower(s)[1] == 't' && Lower(s)[2] == 'r'
  {
    hide TagEnd, Find;
    TrIff(s, TrAt(s).end);
    StartsWithIff(s, "<tr");
    CharAt(Lower(s), "<tr", 1);
    CharAt(Lower(s), "<tr", 2);
  }

  /** What MatchStart finds is what s begins with. */
  lemma MatchIff(s: string, m: Match)
    requires m != NoMatch
    ensures MatchStart(s) == m <==> BeginsMatch(s, m)
  {
    hide WrapAt, TrAt, BeginsWrap, BeginsRow;
    if WrapAt(s, true, "thead").Wrap? { WrapFound(s, true, "thead"); }
    if WrapAt(s, true, "tbody").Wrap? { WrapFound(s, true, "tbody"); }
    if WrapAt(s, true, "tfoot").Wrap? { WrapFound(s, true, "tfoot"); }
    if WrapAt(s, false, "thead").Wrap? { WrapFound(s, false, "thead"); }
    if WrapAt(s, false, "tbody").Wrap? { WrapFound(s, false, "tbody"); }
    if WrapAt(s, false, "tfoot").Wrap? { WrapFound(s, false, "tfoot"); }
    if TrAt(s).Tr? { RowFound(s); }
    if BeginsMatch(s, m) { MatchFound(s, m); }
  }

  lemma MatchFound(s: string, m: Match)
    requires BeginsMatch(s, m)
    ensures if m.Wrap? then m.name in SECTIONS && WrapAt(s, m.closing, m.name) == m else TrAt(s) == m
  {
    hide WrapAt, TrAt;
    match m
    case Wrap(name, closing, end) => WrapIff(s, closing, name, end);
    case Tr(end) => TrIff(s, end);
  }

  /** Where nothing begins, nothing is found. */
  lemma NothingBegins(s: string)
    ensures MatchStart(s) == NoMatch <==> forall m :: !BeginsMatch(s, m)
  {
    hide MatchStart, BeginsMatch;
    if MatchStart(s) != NoMatch { MatchIff(s, MatchStart(s)); }
    forall m | BeginsMatch(s, m) ensures MatchStart(s) == m && m != NoMatch {
      NoMatchIsNone(s);
      MatchIff(s, m);
    }
  }

  lemma NoMatchIsNone(s: string)
    ensures !BeginsMatch(s, NoMatch)
  {
  }

  function After(section: string, m: Match): string
    requires m.Wrap?
  {
    if m.closing then (if section == m.name then "" else section) else m.name
  }

  /** The rows found in s, reading from within `section`. */
  function Scan(s: string, section: string): seq<Row>
    decreases |s|
  {
    if s == "" then []
    else
      match MatchStart(s)
      case NoMatch => Scan(s[1..], section)
      case Wrap(_, _, end) => Scan(s[end..], After(section, MatchStart(s)))
      case Tr(end) => [(section, s[..end])] + Scan(s[end..], section)
  }

  // ---- What the rows of a body are ----

  /** A match and the position in the body where it stands. */
  datatype Found = Found(at: nat, what: Match)

  ghost predicate Stands(body: string, f: Found) {
    f.at <= |body| && f.what != NoMatch && BeginsMatch(body[f.at..], f.what)
  }

  function EndOf(f: Found): nat
    requires f.what != NoMatch
  {
    f.at + f.what.end
  }

  ghost predicate Within(found: seq<Found>, p: nat) {
    exists i :: 0 <= i < |found| && found[i].what != NoMatch && found[i].at <= p < EndOf(found[i])
  }

  /** The section tags and rows of the body before `upto`, in order: nothing begins outside of them. */
  ghost predicate IsReading(body: string, found: seq<Found>, upto: nat) {
    && (forall i :: 0 <= i < |found| ==> Stands(body, found[i]) && EndOf(found[i]) <= upto)
    && (forall i, j :: 0 <= i < j < |found| ==>
          found[i].what != NoMatch && EndOf(found[i]) <= found[j].at)
    && (forall p, m :: 0 <= p < upto && p <= |body| && BeginsMatch(body[p..], m) ==> Within(found, p))
  }

  /** Before n, the tag at j is the last that opens a section, and none after it closes that section. */
  ghost predicate InForce(found: seq<Found>, j: nat, n: nat) {
    && j < n <= |found| && found[j].what.Wrap? && !found[j].what.closing
    && forall k :: j < k < n && found[k].what.Wrap? ==>
         found[k].what.closing && found[k].what.name != found[j].what.name
  }

  ghost predicate IsIn(found: seq<Found>, n: nat, section: string) {
    if section == "" then forall j: nat :: !InForce(found, j, n)
    else exists j: nat :: InForce(found, j, n) && found[j].what.name == section
  }

  /** The rows found are these, each with its markup and the section in force where it stands. `at` says where each of
      them is among all that was found. */
  ghost predicate AreRows(body: string, found: seq<Found>, at: seq<nat>, rows: seq<Row>) {
    && |at| == |rows| && (forall i, j :: 0 <= i < j < |at| ==> at[i] < at[j])
    && (forall n :: 0 <= n < |found| && found[n].what.Tr? ==> n in at)
    && forall i :: 0 <= i < |at| ==> IsRowAt(body, found, at[i], rows[i])
  }

  ghost predicate IsRowAt(body: string, found: seq<Found>, n: nat, row: Row) {
    && n < |found| && found[n].what.Tr? && EndOf(found[n]) <= |body|
    && row.1 == body[found[n].at..EndOf(found[n])] && IsIn(found, n, row.0)
  }

  lemma NothingHere(body: string, found: seq<Found>, pos: nat)
    requires IsReading(body, found, pos) && pos < |body| && MatchStart(body[pos..]) == NoMatch
    ensures IsReading(body, found, pos + 1)
  {
    hide BeginsMatch, MatchStart, Within;
    NothingBegins(body[pos..]);
  }

  lemma FoundHere(body: string, found: seq<Found>, pos: nat)
    requires IsReading(body, found, pos) && pos < |body| && MatchStart(body[pos..]) != NoMatch
    ensures
      var m := MatchStart(body[pos..]);
      IsReading(body, found + [Found(pos, m)], pos + m.end)
  {
    hide BeginsMatch, MatchStart;
    var m := MatchStart(body[pos..]);
    var more := found + [Found(pos, m)];
    MatchIff(body[pos..], m);
    assert more[|found|] == Found(pos, m);
    forall p: nat | Within(found, p) ensures Within(more, p) {
      var i :| 0 <= i < |found| && found[i].what != NoMatch && found[i].at <= p < EndOf(found[i]);
      assert more[i] == found[i];
    }
    forall p: nat | pos <= p < pos + m.end ensures Within(more, p) {}
  }

  lemma InForceBefore(found: seq<Found>, f: Found, n: nat)
    requires n <= |found|
    ensures forall section :: IsIn(found + [f], n, section) <==> IsIn(found, n, section)
  {
    SameSection(found, found + [f], n, n);
  }

  /** The section is the same where the same tags are before it. */
  lemma SameSection(found: seq<Found>, more: seq<Found>, n: nat, n': nat)
    requires found <= more && n <= |found| && n <= n' <= |more| && forall k :: n <= k < n' ==> !more[k].what.Wrap?
    ensures forall section :: IsIn(more, n', section) <==> IsIn(found, n, section)
  {
    assert forall k :: 0 <= k < |found| ==> more[k] == found[k];
    forall j: nat ensures InForce(more, j, n') <==> InForce(found, j, n) {
      if InForce(more, j, n') {
        assert forall k :: j < k < n ==> more[k] == found[k];
      }
    }
    hide InForce;
    forall section: string ensures IsIn(more, n', section) <==> IsIn(found, n, section) {
      if section != "" {
        if IsIn(more, n', section) {
          var j: nat :| InForce(more, j, n') && more[j].what.name == section;
          assert InForce(found, j, n);
        }
        if IsIn(found, n, section) {
          var j: nat :| InForce(found, j, n) && found[j].what.name == section;
          assert InForce(more, j, n');
        }
      }
    }
  }

  lemma RowKeepsSection(found: seq<Found>, f: Found, section: string)
    requires IsIn(found, |found|, section) && f.what.Tr?
    ensures IsIn(found + [f], |found| + 1, section)
  {
    SameSection(found, found + [f], |found|, |found| + 1);
  }

  lemma TagSetsSection(found: seq<Found>, f: Found, section: string)
    requires IsIn(found, |found|, section) && f.what.Wrap? && f.what.name != ""
    ensures IsIn(found + [f], |found| + 1, After(section, f.what))
  {
    var more, n := found + [f], |found| + 1;
    assert more[|found|] == f && forall k :: 0 <= k < |found| ==> more[k] == found[k];
    if f.what.closing {
      assert forall j: nat :: InForce(more, j, n) <==>
        InForce(found, j, |found|) && found[j].what.name != f.what.name;
      forall i: nat, j: nat | InForce(found, i, |found|) && InForce(found, j, |found|) ensures i == j {}
    } else {
      assert InForce(more, |found|, n);
    }
  }

  lemma RowsSoFar(body: string, found: seq<Found>, f: Found, at: seq<nat>, rows: seq<Row>)
    requires AreRows(body, found, at, rows) && f.what.Wrap?
    ensures AreRows(body, found + [f], at, rows)
  {
    forall i | 0 <= i < |at| ensures IsRowAt(body, found + [f], at[i], rows[i]) {
      InForceBefore(found, f, at[i]);
    }
    hide IsRowAt;
  }

  lemma OneMoreRow(body: string, found: seq<Found>, f: Found, at: seq<nat>, rows: seq<Row>, section: string)
    requires AreRows(body, found, at, rows) && f.what.Tr? && IsIn(found, |found|, section) && EndOf(f) <= |body|
    ensures AreRows(body, found + [f], at + [|found|], rows + [(section, body[f.at..EndOf(f)])])
  {
    var more, at', rows' := found + [f], at + [|found|], rows + [(section, body[f.at..EndOf(f)])];
    InForceBefore(found, f, |found|);
    forall i | 0 <= i < |at'| ensures IsRowAt(body, more, at'[i], rows'[i]) {
      if i < |at| {
        assert IsRowAt(body, found, at[i], rows[i]);
        InForceBefore(found, f, at[i]);
      }
    }
    hide IsRowAt;
    assert at'[|at|] == |found|;
    assert forall i :: 0 <= i < |at| ==> at'[i] == at[i];
    forall n | 0 <= n < |more| && more[n].what.Tr? ensures n in at' {
      if n < |found| { assert more[n] == found[n] && n in at; }
    }
  }

  /** The rows of the body in order, each with its markup and the section it is in; what stands between tags and rows
      has no part in it. */
  method SplitHtmlRows(body: string) returns (r: Option<seq<Row>>, ghost found: seq<Found>, ghost at: seq<nat>)
    ensures r == if Scan(body, "") == [] then None else Some(Scan(body, ""))
    ensures IsReading(body, found, |body|) && AreRows(body, found, at, if r.Some? then r.value else [])
  {
    hide MatchStart, IsReading, AreRows, IsIn;
    var rows: seq<Row>, section, pos := [], "", 0;
    found, at := [], [];
    NothingRead(body);
    while pos < |body|
      invariant 0 <= pos <= |body|
      invariant rows + Scan(body[pos..], section) == Scan(body, "")
      invariant IsReading(body, found, pos) && AreRows(body, found, at, rows) && IsIn(found, |found|, section)
    {
      var rest := body[pos..];
      var m := MatchStart(rest);
      ghost var f := Found(pos, m);
      match m {
        case NoMatch =>
          NothingHere(body, found, pos);
          assert rest[1..] == body[pos + 1..];
          pos := pos + 1;
        case Wrap(name, closing, end) =>
          FoundHere(body, found, pos);
          RowsSoFar(body, found, f, at, rows);
          WrapIsNamed(rest);
          TagSetsSection(found, f, section);
          assert rest[end..] == body[pos + end..];
          section := After(section, m);
          pos := pos + end;
          found := found + [f];
        case Tr(end) =>
          FoundHere(body, found, pos);
          OneMoreRow(body, found, f, at, rows, section);
          RowKeepsSection(found, f, section);
          assert rest[end..] == body[pos + end..] && rest[..end] == body[pos..pos + end];
          assert rows + ([(section, rest[..end])] + Scan(rest[end..], section))
              == (rows + [(section, rest[..end])]) + Scan(rest[end..], section);
          rows := rows + [(section, rest[..end])];
          pos := pos + end;
          at := at + [|found|];
          found := found + [f];
      }
    }
    assert body[pos..] == "" && rows + [] == rows;
    r := if rows == [] then None else Some(rows);
  }

  lemma NothingRead(body: string)
    ensures IsReading(body, [], 0) && AreRows(body, [], [], []) && IsIn([], 0, "")
  {
  }

  lemma WrapIsNamed(s: string)
    requires MatchStart(s).Wrap?
    ensures MatchStart(s).name != ""
  {
    hide WrapAt, TrAt;
    MatchIff(s, MatchStart(s));
    hide MatchStart, BeginsRow, Opens;
  }

  lemma NextIsNoLater(body: string, a: seq<Found>, b: seq<Found>, n: nat)
    requires IsReading(body, a, |body|) && IsReading(body, b, |body|) && n < |a| && n <= |b|
    requires forall i :: 0 <= i < n ==> a[i] == b[i]
    ensures n < |b| && b[n].at <= a[n].at
  {
    hide BeginsMatch, MatchStart;
    assert Stands(body, a[n]);
    MatchIff(body[a[n].at..], a[n].what);
    var p := a[n].at;
    assert Within(b, p);
    var i :| 0 <= i < |b| && b[i].what != NoMatch && b[i].at <= p < EndOf(b[i]);
  }

  lemma NextIsSame(body: string, a: seq<Found>, b: seq<Found>, n: nat)
    requires IsReading(body, a, |body|) && IsReading(body, b, |body|) && n < |a| && n <= |b|
    requires forall i :: 0 <= i < n ==> a[i] == b[i]
    ensures n < |b| && a[n] == b[n]
  {
    NextIsNoLater(body, a, b, n);
    NextIsNoLater(body, b, a, n);
    assert Stands(body, a[n]) && Stands(body, b[n]);
    MatchIff(body[a[n].at..], a[n].what);
    MatchIff(body[a[n].at..], b[n].what);
    hide IsReading, BeginsMatch, MatchStart;
  }

  lemma {:induction false} SameReading(body: string, a: seq<Found>, b: seq<Found>, n: nat)
    requires IsReading(body, a, |body|) && IsReading(body, b, |body|) && n <= |a|
    ensures n <= |b| && forall i :: 0 <= i < n ==> a[i] == b[i]
  {
    hide IsReading;
    if n > 0 {
      SameReading(body, a, b, n - 1);
      NextIsSame(body, a, b, n - 1);
    }
  }

  /** There is only one way to read a body. */
  lemma ReadingIsUnique(body: string, a: seq<Found>, b: seq<Found>)
    requires IsReading(body, a, |body|) && IsReading(body, b, |body|)
    ensures a == b
  {
    hide IsReading;
    SameReading(body, a, b, |a|);
    SameReading(body, b, a, |b|);
  }

  /** Text in which nothing begins, put anywhere between two matches, changes neither the rows nor their sections. */
  lemma {:induction false} GapChangesNothing(gap: string, rest: string, section: string)
    requires forall i, m :: 0 <= i < |gap| ==> !BeginsMatch((gap + rest)[i..], m)
    ensures Scan(gap + rest, section) == Scan(rest, section)
  {
    hide BeginsMatch, MatchStart;
    if gap == "" {
      assert gap + rest == rest;
    } else {
      var s := gap + rest;
      assert s[0..] == s;
      NothingBegins(s);
      assert s[1..] == gap[1..] + rest;
      forall i, m | 0 <= i < |gap[1..]| ensures !BeginsMatch((gap[1..] + rest)[i..], m) {
        assert (gap[1..] + rest)[i..] == s[i + 1..];
      }
      GapChangesNothing(gap[1..], rest, section);
    }
  }

  /** Nothing begins but with an angle bracket. */
  lemma BeginsWithBracket(s: string, m: Match)
    requires BeginsMatch(s, m)
    ensures s != "" && s[0] == '<'
  {
    var name := if m.Tr? then "<tr" else (if m.closing then "</" else "<") + m.name;
    assert At(Lower(s), name, 0);
    CharAt(Lower(s), name, 0);
    hide Element, Opens, BeginsMatch;
    assert Lower(s)[0] == LowerChar(s[0]);
  }

  lemma PlainGap(gap: string, rest: string, section: string)
    requires '<' !in gap
    ensures Scan(gap + rest, section) == Scan(rest, section)
  {
    forall i, m | 0 <= i < |gap| ensures !BeginsMatch((gap + rest)[i..], m) {
      assert (gap + rest)[i..][0] == gap[i] && gap[i] in gap;
      if BeginsMatch((gap + rest)[i..], m) { BeginsWithBracket((gap + rest)[i..], m); }
    }
    GapChangesNothing(gap, rest, section);
  }

  function OpenTag(section: string): string {
    if section == "" then "" else "<" + section + ">"
  }

  function CloseTag(section: string): string {
    if section == "" then "" else "</" + section + ">"
  }

  /** The markup of the rows, continuing within `section`. */
  function Markup(rows: seq<Row>, section: string): string {
    if rows == [] then CloseTag(section)
    else
      (if rows[0].0 != section then CloseTag(section) + OpenTag(rows[0].0) else "")
      + rows[0].1 + Markup(rows[1..], rows[0].0)
  }

  /** The rows' own markup, one after another. */
  function Bare(rows: seq<Row>): string {
    if rows == [] then "" else rows[0].1 + Bare(rows[1..])
  }

  lemma {:induction false} SectionGoesOn(rows: seq<Row>, section: string)
    requires forall r :: r in rows ==> r.0 == section
    ensures Markup(rows, section) == Bare(rows) + CloseTag(section)
  {
    if rows == [] {
      assert "" + CloseTag(section) == CloseTag(section);
    } else {
      assert rows[0] in rows;
      SectionGoesOn(rows[1..], section);
      MarkupFirst(rows, section);
      hide Markup, CloseTag;
      Associative(rows[0].1, Bare(rows[1..]), CloseTag(section));
    }
  }

  /** Rows of one section share its tags. */
  lemma OneSectionMarkup(rows: seq<Row>, section: string)
    requires rows != [] && forall r :: r in rows ==> r.0 == section
    ensures Markup(rows, "") == OpenTag(section) + Bare(rows) + CloseTag(section)
  {
    SectionGoesOn(rows, section);
    assert rows[0] in rows;
    MarkupFirst(rows, "");
    MarkupFirst(rows, section);
    hide Markup, Bare;
    Associative(OpenTag(section), Bare(rows), CloseTag(section));
    assert "" + Bare(rows) == Bare(rows) && "" + (OpenTag(section) + (Bare(rows) + CloseTag(section)))
      == OpenTag(section) + (Bare(rows) + CloseTag(section));
  }

  /** Where the section changes, nothing is shared. */
  lemma {:induction false} MarkupAtChange(a: seq<Row>, b: seq<Row>, section: string)
    requires a != [] && b != [] && a[|a| - 1].0 != b[0].0
    ensures Markup(a + b, section) == Markup(a, section) + Markup(b, "")
  {
    var (wrapper, tr) := a[0];
    assert (a + b)[1..] == a[1..] + b && (a + b)[0] == a[0];
    assert Markup(a[1..] + b, wrapper) == Markup(a[1..], wrapper) + Markup(b, "") by {
      if |a| == 1 {
        assert a[1..] == [] && a[1..] + b == b && Markup([], wrapper) == CloseTag(wrapper);
        MarkupFromSection(b, wrapper);
      } else {
        MarkupAtChange(a[1..], b, wrapper);
      }
    }
    MarkupFirst(a, section);
    MarkupFirst(a + b, section);
    hide Markup, OpenTag, CloseTag;
    Associative(tr, Markup(a[1..], wrapper), Markup(b, ""));
    if wrapper != section {
      Associative(OpenTag(wrapper), tr + Markup(a[1..], wrapper), Markup(b, ""));
      Associative(CloseTag(section), OpenTag(wrapper) + (tr + Markup(a[1..], wrapper)), Markup(b, ""));
    }
  }

  lemma MarkupFromSection(rows: seq<Row>, section: string)
    requires rows != [] && rows[0].0 != section
    ensures Markup(rows, section) == CloseTag(section) + Markup(rows, "")
  {
    MarkupFirst(rows, section);
    MarkupFirst(rows, "");
    var body := rows[0].1 + Markup(rows[1..], rows[0].0);
    hide Markup;
    assert "" + (OpenTag(rows[0].0) + body) == OpenTag(rows[0].0) + body && "" + body == body;
  }

  method SerializeHtmlRows(rows: seq<Row>) returns (markup: string)
    ensures markup == Markup(rows, "")
  {
    markup := "";
    var section := "";
    for i := 0 to |rows|
      invariant markup + Markup(rows[i..], section) == Markup(rows, "")
    {
      var (wrapper, tr) := rows[i];
      MarkupStep(markup, rows, i, section);
      if wrapper != section {
        if section != "" { markup := markup + CloseTag(section); }
        if wrapper != "" { markup := markup + OpenTag(wrapper); }
        section := wrapper;
      }
      markup := markup + tr;
    }
    assert rows[|rows|..] == [];
    if section != "" { markup := markup + CloseTag(section); }
  }

  lemma MarkupStep(done: string, rows: seq<Row>, i: nat, section: string)
    requires i < |rows|
    ensures
      var wrapper := rows[i].0;
      var change := if wrapper == section then done
                    else if section == "" then done + OpenTag(wrapper)
                    else if wrapper == "" then done + CloseTag(section)
                    else done + CloseTag(section) + OpenTag(wrapper);
      done + Markup(rows[i..], section) == change + rows[i].1 + Markup(rows[i + 1..], wrapper)
  {
    assert rows[i..][1..] == rows[i + 1..] && rows[i..][0] == rows[i];
    var (wrapper, tr) := rows[i];
    var rest := Markup(rows[i + 1..], wrapper);
    var change := if wrapper != section then CloseTag(section) + OpenTag(wrapper) else "";
    assert Markup(rows[i..], section) == change + tr + rest;
    hide Markup;
    Unnested(done, change, tr, rest);
    if wrapper != section {
      assert done + change == done + CloseTag(section) + OpenTag(wrapper);
      assert section == "" ==> done + CloseTag(section) == done;
      assert wrapper == "" ==> done + CloseTag(section) + OpenTag(wrapper) == done + CloseTag(section);
    }
  }

  lemma Unnested(a: string, b: string, c: string, d: string)
    ensures a + (b + c + d) == a + b + c + d
  {
  }

  // ---- Round trip ----

  /** The whole string is one row. */
  predicate IsRow(tr: string) {
    MatchStart(tr) == Tr(|tr|)
  }

  predicate IsSection(section: string) {
    section == "" || section in SECTIONS
  }

  predicate WellFormed(rows: seq<Row>) {
    forall r :: r in rows ==> IsSection(r.0) && IsRow(r.1)
  }

  lemma Mismatch(s: string, lower: string, i: nat)
    requires i < |lower| && i < |s| && LowerChar(s[i]) != lower[i]
    ensures !StartsWith(s, lower)
  {
    if |lower| <= |s| { assert Lower(s[..|lower|])[i] == LowerChar(s[i]); }
  }

  lemma StartChar(s: string, lower: string, i: nat)
    requires StartsWith(s, lower) && i < |lower|
    ensures i < |s| && LowerChar(s[i]) == lower[i]
  {
    assert Lower(s[..|lower|])[i] == LowerChar(s[i]);
  }

  lemma LiteralStart(s: string, lower: string)
    requires |lower| <= |s| && s[..|lower|] == lower && forall c :: c in lower ==> LowerChar(c) == c
    ensures StartsWith(s, lower)
  {
    assert forall i :: 0 <= i < |lower| ==> lower[i] in lower;
  }

  lemma TagEndsHere(s: string, n: nat)
    requires n < |s| && s[n] == '>'
    ensures TagEnd(s, n) == Some(n + 1)
  {
    assert At(s[n..], ">", 0);
  }

  /** No section tag begins like a row. */
  lemma RowIsNoWrap(s: string)
    requires StartsWith(s, "<tr")
    ensures MatchStart(s) == TrAt(s)
  {
    hide StartsWith, TagEnd, TrAt;
    StartChar(s, "<tr", 1);
    StartChar(s, "<tr", 2);
    Mismatch(s, "</thead", 1); Mismatch(s, "</tbody", 1); Mismatch(s, "</tfoot", 1);
    Mismatch(s, "<thead", 2); Mismatch(s, "<tbody", 2); Mismatch(s, "<tfoot", 2);
    NoWrap(s, true, "thead", "</thead"); NoWrap(s, true, "tbody", "</tbody"); NoWrap(s, true, "tfoot", "</tfoot");
    NoWrap(s, false, "thead", "<thead"); NoWrap(s, false, "tbody", "<tbody"); NoWrap(s, false, "tfoot", "<tfoot");
    hide WrapAt;
  }

  lemma NoWrap(s: string, closing: bool, name: string, open: string)
    requires open == (if closing then "</" else "<") + name && !StartsWith(s, open)
    ensures WrapAt(s, closing, name) == NoMatch
  {
    hide StartsWith, TagEnd;
  }

  lemma OnlyRowsAreTr(s: string)
    requires MatchStart(s).Tr?
    ensures TrAt(s) == MatchStart(s)
  {
    hide WrapAt, TrAt;
  }

  lemma TagEndInPrefix(s: string, t: string, name: nat)
    requires name < |s| && (TagEnd(s, name).Some? || (TagEnd(s + t, name).Some? && TagEnd(s + t, name).value <= |s|))
    ensures TagEnd(s, name) == TagEnd(s + t, name)
  {
    assert (s + t)[name..] == s[name..] + t && (s + t)[name] == s[name];
    if !IsWordChar(s[name]) { FindInPrefix(s[name..], t, ">"); }
  }

  lemma TrAtParts(s: string, n: nat)
    ensures TrAt(s) == Tr(n) <==>
      StartsWith(s, "<tr") && TagEnd(s, 3).Some?
      && Find(Lower(s[TagEnd(s, 3).value..]), "</tr>") == Some(n - TagEnd(s, 3).value - 5)
  {
    hide StartsWith, TagEnd, Find;
  }

  lemma StartInPrefix(s: string, t: string, lower: string)
    requires |lower| <= |s|
    ensures StartsWith(s + t, lower) <==> StartsWith(s, lower)
  {
    assert (s + t)[..|lower|] == s[..|lower|];
  }

  lemma LowerConcat(a: string, b: string)
    ensures Lower(a + b) == Lower(a) + Lower(b)
  {
  }

  /** A row is the same row wherever it stands; and what is matched as a row is a row on its own. */
  lemma RowInContext(s: string, t: string)
    requires TrAt(s) == Tr(|s|) || TrAt(s + t) == Tr(|s|)
    ensures TrAt(s) == Tr(|s|) && TrAt(s + t) == Tr(|s|)
    ensures MatchStart(s) == Tr(|s|) && MatchStart(s + t) == Tr(|s|)
  {
    hide MatchStart, TrAt, StartsWith, TagEnd, Find, LowerChar, Lower;
    TrAtParts(s, |s|);
    TrAtParts(s + t, |s|);
    var u := if TrAt(s) == Tr(|s|) then s else s + t;
    var open := TagEnd(u, 3).value;
    StartInPrefix(s, t, "<tr");
    TagEndInPrefix(s, t, 3);
    assert (s + t)[open..] == s[open..] + t;
    LowerConcat(s[open..], t);
    FindInPrefix(Lower(s[open..]), Lower(t), "</tr>");
    RowIsNoWrap(s);
    RowIsNoWrap(s + t);
  }

  lemma WrapMatches(s: string, closing: bool, name: string, open: string)
    requires open == (if closing then "</" else "<") + name
    requires |open| < |s| && s[..|open|] == open && s[|open|] == '>' && forall c :: c in open ==> LowerChar(c) == c
    ensures WrapAt(s, closing, name) == Wrap(name, closing, |open| + 1)
  {
    hide StartsWith, TagEnd, LowerChar;
    LiteralStart(s, open);
    TagEndsHere(s, |open|);
  }

  lemma OpenTagInContext(section: string, rest: string)
    requires section in SECTIONS
    ensures MatchStart(OpenTag(section) + rest) == Wrap(section, false, |section| + 2)
  {
    hide StartsWith, TagEnd, TrAt;
    var s, open := OpenTag(section) + rest, "<" + section;
    assert s[..|open|] == open && s[|open|] == '>' && s[1] == section[0] && s[2] == section[1];
    Mismatch(s, "</thead", 1); Mismatch(s, "</tbody", 1); Mismatch(s, "</tfoot", 1);
    NoWrap(s, true, "thead", "</thead"); NoWrap(s, true, "tbody", "</tbody"); NoWrap(s, true, "tfoot", "</tfoot");
    if section != "thead" { Mismatch(s, "<thead", 2); NoWrap(s, false, "thead", "<thead"); }
    if section != "tbody" { Mismatch(s, "<tbody", 2); NoWrap(s, false, "tbody", "<tbody"); }
    if section != "tfoot" { Mismatch(s, "<tfoot", 2); NoWrap(s, false, "tfoot", "<tfoot"); }
    hide WrapAt;
    WrapMatches(s, false, section, open);
  }

  lemma CloseTagInContext(section: string, rest: string)
    requires section in SECTIONS
    ensures MatchStart(CloseTag(section) + rest) == Wrap(section, true, |section| + 3)
  {
    hide StartsWith, TagEnd, TrAt;
    var s, open := CloseTag(section) + rest, "</" + section;
    assert s[..|open|] == open && s[|open|] == '>' && s[3] == section[1];
    if section != "thead" { Mismatch(s, "</thead", 3); NoWrap(s, true, "thead", "</thead"); }
    if section != "tbody" { Mismatch(s, "</tbody", 3); NoWrap(s, true, "tbody", "</tbody"); }
    if section != "tfoot" { Mismatch(s, "</tfoot", 3); NoWrap(s, true, "tfoot", "</tfoot"); }
    hide WrapAt;
    WrapMatches(s, true, section, open);
  }

  lemma ScanRow(tr: string, rest: string, wrapper: string)
    requires IsRow(tr)
    ensures Scan(tr + rest, wrapper) == [(wrapper, tr)] + Scan(rest, wrapper)
  {
    hide MatchStart;
    OnlyRowsAreTr(tr);
    RowInContext(tr, rest);
    assert (tr + rest)[|tr|..] == rest && (tr + rest)[..|tr|] == tr;
  }

  lemma MarkupFirst(rows: seq<Row>, section: string)
    requires rows != []
    ensures
      var (wrapper, tr) := rows[0];
      var body := tr + Markup(rows[1..], wrapper);
      Markup(rows, section) == if wrapper != section then CloseTag(section) + (OpenTag(wrapper) + body) else body
  {
    var (wrapper, tr) := rows[0];
    var rest := Markup(rows[1..], wrapper);
    var change := if wrapper != section then CloseTag(section) + OpenTag(wrapper) else "";
    assert Markup(rows, section) == change + tr + rest;
    hide Markup, OpenTag, CloseTag;
    if wrapper != section {
      Nest(CloseTag(section), OpenTag(wrapper), tr, rest);
    } else {
      Nest("", "", tr, rest);
    }
  }

  lemma Nest(a: string, b: string, c: string, d: string)
    ensures a + b + c + d == a + (b + (c + d))
    ensures "" + c + d == c + d
  {
  }

  lemma {:induction false} ScanMarkup(rows: seq<Row>, section: string)
    requires WellFormed(rows) && IsSection(section)
    ensures Scan(Markup(rows, section), section) == rows
  {
    hide MatchStart, IsRow;
    if rows == [] {
      if section != "" {
        CloseTagInContext(section, "");
        assert CloseTag(section) + "" == CloseTag(section) && CloseTag(section)[|section| + 3..] == "";
      }
    } else {
      var (wrapper, tr) := rows[0];
      assert rows[0] in rows;
      var rest := Markup(rows[1..], wrapper);
      ScanMarkup(rows[1..], wrapper);
      MarkupFirst(rows, section);
      hide Markup, Scan;
      ScanRow(tr, rest, wrapper);
      if wrapper != section { ScanTransition(section, wrapper, tr + rest); }
    }
  }

  /** Closing one section and opening another brings the scanner into the second. */
  lemma ScanTransition(section: string, wrapper: string, rest: string)
    requires IsSection(section) && IsSection(wrapper) && section != wrapper
    ensures Scan(CloseTag(section) + (OpenTag(wrapper) + rest), section) == Scan(rest, wrapper)
  {
    hide MatchStart;
    var tail := OpenTag(wrapper) + rest;
    if wrapper == "" {
      assert tail == rest;
    } else {
      OpenTagInContext(wrapper, rest);
      assert tail[|wrapper| + 2..] == rest;
    }
    if section == "" {
      assert CloseTag(section) + tail == tail;
    } else {
      CloseTagInContext(section, tail);
      assert (CloseTag(section) + tail)[|section| + 3..] == tail;
    }
  }

  /** Rows survive printing and parsing, with their sections; so do head and tail slices of them. */
  lemma RowsRoundTrip(rows: seq<Row>)
    requires WellFormed(rows)
    ensures Scan(Markup(rows, ""), "") == rows
    ensures forall k :: 0 <= k <= |rows| ==> Scan(Markup(rows[..k], ""), "") == rows[..k]
    ensures forall k :: 0 <= k <= |rows| ==> Scan(Markup(rows[k..], ""), "") == rows[k..]
  {
    ScanMarkup(rows, "");
    forall k | 0 <= k <= |rows|
      ensures Scan(Markup(rows[..k], ""), "") == rows[..k] && Scan(Markup(rows[k..], ""), "") == rows[k..]
    {
      assert forall r :: r in rows[..k] || r in rows[k..] ==> r in rows;
      ScanMarkup(rows[..k], "");
      ScanMarkup(rows[k..], "");
    }
  }

  lemma {:induction false} ScannedRowsAreWellFormed(s: string, section: string)
    requires IsSection(section)
    ensures WellFormed(Scan(s, section))
    decreases |s|
  {
    if s != "" {
      var m := MatchStart(s);
      match m
      case NoMatch => ScannedRowsAreWellFormed(s[1..], section);
      case Wrap(_, _, end) => ScannedRowsAreWellFormed(s[end..], After(section, m));
      case Tr(end) =>
        assert s == s[..end] + s[end..];
        OnlyRowsAreTr(s);
        RowInContext(s[..end], s[end..]);
        ScannedRowsAreWellFormed(s[end..], section);
    }
  }

  /** Splitting, printing and splitting again is splitting. */
  lemma SplitIsStable(body: string)
    ensures Scan(Markup(Scan(body, ""), ""), "") == Scan(body, "")
  {
    ScannedRowsAreWellFormed(body, "");
    RowsRoundTrip(Scan(body, ""));
  }

  /** Line breaks between the tags of a section leave its row in it. */
  lemma LineBreaksKeepSections(tr: string)
    requires IsRow(tr)
    ensures Scan("<thead>\n" + tr + "\n</thead>\n", "") == [("thead", tr)]
  {
    hide MatchStart, IsRow, Scan;
    var close := CloseTag("thead") + "\n";
    PlainGap("\n", "", "");
    assert "\n" + "" == "\n" && Scan("", "") == [] by { ScanNothing(""); }
    ScanTag("thead", true, "\n", "thead");
    PlainGap("\n", close, "thead");
    ScanRow(tr, "\n" + close, "thead");
    PlainGap("\n", tr + ("\n" + close), "thead");
    ScanTag("thead", false, "\n" + (tr + ("\n" + close)), "");
    assert OpenTag("thead") + ("\n" + (tr + ("\n" + close))) == "<thead>\n" + tr + "\n</thead>\n";
  }

  lemma ScanNothing(section: string)
    ensures Scan("", section) == []
  {
  }

  lemma ScanTag(name: string, closing: bool, rest: string, section: string)
    requires name in SECTIONS && (closing ==> section == name)
    ensures Scan((if closing then CloseTag(name) else OpenTag(name)) + rest, section)
         == Scan(rest, if closing then "" else name)
  {
    hide MatchStart;
    if closing {
      CloseTagInContext(name, rest);
      assert (CloseTag(name) + rest)[|name| + 3..] == rest;
    } else {
      OpenTagInContext(name, rest);
      assert (OpenTag(name) + rest)[|name| + 2..] == rest;
    }
  }
}
