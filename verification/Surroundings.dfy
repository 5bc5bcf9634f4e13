/** The text kept around a drawing, table or equation, within a token budget. */
module Surroundings {
  import opened Options
  import opened Text
  import opened TableRows
  import opened Trimming

  // ---- _atomize ----

  datatype Kind = Plain | Drawing | Equation | TableTag

  datatype Atom = Atom(kind: Kind, text: string)

  /** The literal `name`, a word boundary, and the first `>`: where an opening tag at the start of s ends. */
  function OpenEnd(s: string, name: string): (r: Option<nat>)
    ensures r.Some? ==> |name| < r.value <= |s|
  {
    if IsPrefix(name, s) then TagEnd(s, |name|) else None
  }

  function ClosedTag(s: string, name: string, close: string): (r: Option<nat>)
    requires close != ""
    ensures r.Some? ==> 0 < r.value <= |s|
  {
    var open := OpenEnd(s, name);
    if open.None? then None
    else
      var end := Find(s[open.value..], close);
      if end.Some? then Some(open.value + end.value + |close|) else None
  }

  /** The multimodal tag at the start of s, if there is one. */
  function TagAt(s: string): (r: Option<Atom>)
    ensures r.Some? ==> r.value.kind != Plain && r.value.text != "" && IsPrefix(r.value.text, s)
  {
    var drawing := OpenEnd(s, "<drawing");
    var table := ClosedTag(s, "<table", "</table>");
    var equation := ClosedTag(s, "<equation", "</equation>");
    if drawing.Some? && drawing.value - 2 >= 8 && s[drawing.value - 2] == '/'
      then Some(Atom(Drawing, s[..drawing.value]))
    else if table.Some? then Some(Atom(TableTag, s[..table.value]))
    else if equation.Some? then Some(Atom(Equation, s[..equation.value]))
    else None
  }

  // ---- What a tag is ----

  /** s begins with a tag of this kind, which goes up to `end`: `<table ...>...</table>`,
      `<equation ...>...</equation>`, or `<drawing .../>`. */
  ghost predicate BeginsTag(s: string, kind: Kind, end: nat) {
    match kind
    case Plain => false
    case Drawing => end >= 10 && Opens(s, "<drawing", end - 1) && s[end - 2] == '/'
    case TableTag => Element(s, "<table", "</table>", end)
    case Equation => Element(s, "<equation", "</equation>", end)
  }

  ghost predicate StartsTag(s: string) {
    exists kind, end :: BeginsTag(s, kind, end)
  }

  lemma OpensIff(s: string, name: string)
    ensures OpenEnd(s, name).Some? ==> Opens(s, name, OpenEnd(s, name).value - 1)
    ensures forall g :: Opens(s, name, g) ==> OpenEnd(s, name) == Some(g + 1)
  {
    hide Find;
    if IsPrefix(name, s) { FindIsFirst(s, ">", |name|); }
  }

  lemma ClosedTagIs(s: string, name: string, close: string)
    requires close != "" && ClosedTag(s, name, close).Some?
    ensures Element(s, name, close, ClosedTag(s, name, close).value) && At(s, name, 0)
  {
    hide Find, At, FirstFrom, OpenEnd;
    var open, end := OpenEnd(s, name).value, ClosedTag(s, name, close).value;
    OpensIff(s, name);
    FindIsFirst(s, close, open);
    assert Opens(s, name, open - 1) && FirstFrom(s, close, open - 1 + 1, end - |close|);
  }

  lemma ElementIsFound(s: string, name: string, close: string, end: nat)
    requires close != "" && Element(s, name, close, end)
    ensures At(s, name, 0) && end <= |s| && ClosedTag(s, name, close) == Some(end)
  {
    hide Find, At, OpenEnd, IsWordChar;
    OpensIff(s, name);
    var g: nat :| Opens(s, name, g) && FirstFrom(s, close, g + 1, end - |close|);
    AtFits(s, close, end - |close|);
    FindIsFirst(s, close, g + 1);
  }

  /** The three names exclude each other. */
  lemma OneName(s: string)
    ensures At(s, "<drawing", 0) ==> !At(s, "<table", 0) && !At(s, "<equation", 0)
    ensures At(s, "<table", 0) ==> !At(s, "<equation", 0)
  {
    assert At(s, "<drawing", 0) ==> s[..8][1] == s[1];
    assert At(s, "<table", 0) ==> s[..6][1] == s[1];
    assert At(s, "<equation", 0) ==> s[..9][1] == s[1];
  }

  /** What TagAt finds is a tag that s begins with. */
  lemma FoundIsTag(s: string)
    requires TagAt(s).Some?
    ensures var tag := TagAt(s).value; BeginsTag(s, tag.kind, |tag.text|) && tag.text == s[..|tag.text|]
  {
    hide OpenEnd, ClosedTag, Opens, Element;
    OpensIff(s, "<drawing");
    if ClosedTag(s, "<table", "</table>").Some? { ClosedTagIs(s, "<table", "</table>"); }
    if ClosedTag(s, "<equation", "</equation>").Some? { ClosedTagIs(s, "<equation", "</equation>"); }
  }

  /** And the tag that s begins with is found. */
  lemma TagIsFound(s: string, kind: Kind, end: nat)
    requires BeginsTag(s, kind, end)
    ensures end <= |s| && TagAt(s) == Some(Atom(kind, s[..end]))
  {
    hide ClosedTag, Element, Find, FirstFrom;
    OneName(s);
    OpensIff(s, "<drawing");
    match kind
    case Drawing =>
    case TableTag => ElementIsFound(s, "<table", "</table>", end);
    case Equation =>
      ElementIsFound(s, "<equation", "</equation>", end);
      if ClosedTag(s, "<table", "</table>").Some? { ClosedTagIs(s, "<table", "</table>"); }
  }

  lemma FirstBehind(head: string, tail: string, pat: string, i: nat)
    ensures FirstFrom(head + tail, pat, |head|, |head| + i) <==>
      At(tail, pat, i) && forall j: nat :: j < i ==> !At(tail, pat, j)
  {
    var s := head + tail;
    assert s[|head|..] == tail;
    forall j: nat ensures At(s, pat, |head| + j) <==> At(tail, pat, j) { AtFrom(s, pat, |head|, j); }
    hide At;
    if FirstFrom(s, pat, |head|, |head| + i) {
      forall j: nat | j < i ensures !At(tail, pat, j) { assert !At(s, pat, |head| + j); }
    }
    forall k: nat | |head| <= k ensures At(s, pat, k) <==> At(tail, pat, k - |head|) {
      assert |head| + (k - |head|) == k;
    }
  }

  lemma TableOpens(attrs: string, rest: string, g: nat)
    requires '>' !in attrs
    ensures Opens("<table " + attrs + ">" + rest, "<table", g) <==> g == 7 + |attrs|
  {
    var s, at := "<table " + attrs + ">" + rest, 7 + |attrs|;
    assert s[0..6] == "<table" && s[6] == ' ' && s[at..at + 1] == ">";
    assert At(s, "<table", 0) && At(s, ">", at) && |"<table"| == 6;
    forall k: nat | 6 <= k < at ensures !At(s, ">", k) {
      assert s[k..k + 1] == [s[k]] && (k > 6 ==> s[k] == attrs[k - 7] && attrs[k - 7] in attrs);
    }
  }

  /** What a table is trimmed to is one table tag again exactly if no closing tag shows up in its new body. */
  lemma TableIsTag(attrs: string, body: string)
    requires '>' !in attrs
    ensures BeginsTag(Table(attrs, body), TableTag, |Table(attrs, body)|)
      <==> forall j: nat :: j < |body| ==> !At(body + "</table>", "</table>", j)
  {
    var head, tail := "<table " + attrs + ">", body + "</table>";
    assert Table(attrs, body) == head + tail && tail[|body|..] == "</table>";
    forall g: nat ensures Opens(head + tail, "<table", g) <==> g == |head| - 1 { TableOpens(attrs, tail, g); }
    FirstBehind(head, tail, "</table>", |body|);
    assert At(tail, "</table>", |body|);
    hide Opens, FirstFrom, At;
    assert Opens(head + tail, "<table", |head| - 1) && |head + tail| - |"</table>"| == |head| + |body|;
    assert Element(head + tail, "<table", "</table>", |head + tail|) <==>
      FirstFrom(head + tail, "</table>", |head|, |head| + |body|);
  }

  function PlainAtom(text: string): seq<Atom> {
    if text == "" then [] else [Atom(Plain, text)]
  }

  /** The atoms of s, with `pending` the plain text read since the last tag. */
  function Atoms(s: string, pending: string): seq<Atom>
    decreases |s|
  {
    if s == "" then PlainAtom(pending)
    else
      var tag := TagAt(s);
      if tag.None? then Atoms(s[1..], pending + [s[0]])
      else PlainAtom(pending) + [tag.value] + Atoms(s[|tag.value.text|..], "")
  }

  lemma TagStep(done: seq<Atom>, s: string, pending: string)
    requires s != "" && TagAt(s).Some?
    ensures
      var rest := Atoms(s[|TagAt(s).value.text|..], "");
      done + Atoms(s, pending) == (if pending == "" then done else done + [Atom(Plain, pending)]) + [TagAt(s).value]
        + rest
  {
    var tag, rest := TagAt(s).value, Atoms(s[|TagAt(s).value.text|..], "");
    assert Atoms(s, pending) == PlainAtom(pending) + [tag] + rest;
    hide Atoms, TagAt;
    Unnest(done, PlainAtom(pending), [tag], rest);
    assert done + [] == done;
  }

  lemma Unnest(a: seq<Atom>, b: seq<Atom>, c: seq<Atom>, d: seq<Atom>)
    ensures a + (b + c + d) == a + b + c + d
    ensures b + c + d == b + (c + d) && [] + c + d == c + d
  {
  }

  method Atomize(text: string) returns (atoms: seq<Atom>)
    ensures atoms == Atoms(text, "") && Tiles(atoms, text)
  {
    hide TagAt, Tiles;
    atoms := [];
    var pos, start := 0, 0;
    while pos < |text|
      invariant 0 <= start <= pos <= |text|
      invariant atoms + Atoms(text[pos..], text[start..pos]) == Atoms(text, "")
    {
      var rest := text[pos..];
      var tag := TagAt(rest);
      if tag.None? {
        assert rest[1..] == text[pos + 1..] && text[start..pos] + [rest[0]] == text[start..pos + 1];
        pos := pos + 1;
      } else {
        var end := pos + |tag.value.text|;
        assert rest[|tag.value.text|..] == text[end..] && text[end..end] == "";
        TagStep(atoms, rest, text[start..pos]);
        if pos > start { atoms := atoms + [Atom(Plain, text[start..pos])]; }
        atoms := atoms + [tag.value];
        pos := end;
        start := end;
      }
    }
    assert text[pos..] == "" && text[start..pos] == text[start..] && atoms + [] == atoms;
    if start < |text| { atoms := atoms + [Atom(Plain, text[start..])]; }
    AtomizeTiles(text, atoms);
  }

  function Texts(atoms: seq<Atom>): seq<string> {
    if atoms == [] then [] else [atoms[0].text] + Texts(atoms[1..])
  }

  /** What Atomize promises: the atoms make up the text; each tag is whole, each plain atom starts no tag and is as
      long as possible. */
  ghost predicate Tiles(atoms: seq<Atom>, s: string) {
    if atoms == [] then s == ""
    else
      var a := atoms[0];
      && a.text != "" && IsPrefix(a.text, s)
      && (if a.kind == Plain then
            (forall i :: 0 <= i < |a.text| ==> !StartsTag(s[i..])) && (|atoms| > 1 ==> atoms[1].kind != Plain)
          else BeginsTag(s, a.kind, |a.text|))
      && Tiles(atoms[1..], s[|a.text|..])
  }

  /** TagAt tells whether, and with which tag, s begins with one. */
  lemma TagAtTells(s: string)
    ensures TagAt(s).None? <==> !StartsTag(s)
    ensures TagAt(s).Some? ==> BeginsTag(s, TagAt(s).value.kind, |TagAt(s).value.text|)
  {
    hide TagAt, BeginsTag;
    if TagAt(s).Some? { FoundIsTag(s); }
    if StartsTag(s) {
      var kind, end :| BeginsTag(s, kind, end);
      TagIsFound(s, kind, end);
    }
  }

  lemma TileTag(tag: Atom, rest: seq<Atom>, s: string)
    requires TagAt(s) == Some(tag) && Tiles(rest, s[|tag.text|..])
    ensures Tiles([tag] + rest, s)
  {
    TagAtTells(s);
    hide TagAt, BeginsTag;
    assert ([tag] + rest)[1..] == rest;
  }

  lemma TilePlain(p: string, rest: seq<Atom>, s: string)
    requires p != "" && forall i :: 0 <= i < |p| ==> !StartsTag((p + s)[i..])
    requires Tiles(rest, s) && (rest != [] ==> rest[0].kind != Plain)
    ensures Tiles([Atom(Plain, p)] + rest, p + s)
  {
    hide StartsTag, BeginsTag;
    assert ([Atom(Plain, p)] + rest)[1..] == rest;
    assert (p + s)[|p|..] == s;
  }

  /** The end of the text. */
  lemma LastTile(pending: string)
    requires forall i :: 0 <= i < |pending| ==> !StartsTag(pending[i..])
    ensures Tiles(PlainAtom(pending), pending)
  {
    hide StartsTag, BeginsTag, Tiles;
    TilesNothing();
    if pending != "" {
      assert pending + "" == pending && [Atom(Plain, pending)] + [] == [Atom(Plain, pending)];
      TilePlain(pending, [], "");
    }
  }

  /** Another character that starts no tag. */
  lemma PendingGrows(pending: string, s: string)
    requires s != "" && !StartsTag(s) && forall i :: 0 <= i < |pending| ==> !StartsTag((pending + s)[i..])
    ensures pending + [s[0]] + s[1..] == pending + s
    ensures forall i :: 0 <= i <= |pending| ==> !StartsTag((pending + s)[i..])
  {
    hide StartsTag;
    assert (pending + s)[|pending|..] == s;
  }

  /** A tag, after the plain text before it. */
  lemma TagTile(pending: string, s: string, rest: seq<Atom>)
    requires s != "" && TagAt(s).Some? && forall i :: 0 <= i < |pending| ==> !StartsTag((pending + s)[i..])
    requires Tiles(rest, s[|TagAt(s).value.text|..])
    ensures Tiles(PlainAtom(pending) + [TagAt(s).value] + rest, pending + s)
  {
    var tag := TagAt(s).value;
    TileTag(tag, rest, s);
    hide TagAt, StartsTag, Tiles;
    Unnest([], PlainAtom(pending), [tag], rest);
    if pending == "" {
      assert pending + s == s;
    } else {
      TilePlain(pending, [tag] + rest, s);
    }
  }

  lemma {:induction false} AtomsTile(s: string, pending: string)
    requires forall i :: 0 <= i < |pending| ==> !StartsTag((pending + s)[i..])
    ensures Tiles(Atoms(s, pending), pending + s)
    decreases |s|
  {
    hide TagAt, StartsTag, Tiles;
    TagAtTells(s);
    if s == "" {
      assert pending + s == pending;
      LastTile(pending);
    } else if TagAt(s).None? {
      PendingGrows(pending, s);
      AtomsTile(s[1..], pending + [s[0]]);
    } else {
      var rest := s[|TagAt(s).value.text|..];
      assert "" + rest == rest;
      AtomsTile(rest, "");
      TagTile(pending, s, Atoms(rest, ""));
    }
  }

  lemma TilesNothing()
    ensures Tiles([], "")
  {
  }

  lemma {:induction false} TilesConcat(atoms: seq<Atom>, s: string)
    requires Tiles(atoms, s)
    ensures Concat(Texts(atoms)) == s
  {
    hide BeginsTag, StartsTag;
    if atoms != [] {
      TilesConcat(atoms[1..], s[|atoms[0].text|..]);
      assert s == atoms[0].text + s[|atoms[0].text|..];
      assert Texts(atoms)[1..] == Texts(atoms[1..]);
    }
  }

  /** There is at most one tag that s begins with. */
  lemma OneTag(s: string, kind: Kind, end: nat, kind': Kind, end': nat)
    requires BeginsTag(s, kind, end) && BeginsTag(s, kind', end')
    ensures kind == kind' && end == end'
  {
    hide BeginsTag, TagAt;
    TagIsFound(s, kind, end);
    TagIsFound(s, kind', end');
  }

  /** Two tilings begin with the same atom. */
  lemma FirstAtomUnique(a: seq<Atom>, b: seq<Atom>, s: string)
    requires Tiles(a, s) && Tiles(b, s) && a != [] && b != []
    ensures a[0] == b[0]
  {
    hide BeginsTag;
    assert s[0..] == s;
    assert a[0].kind == Plain || b[0].kind == Plain ==> !StartsTag(s);
    if a[0].kind == Plain && b[0].kind == Plain {
      if |a[0].text| < |b[0].text| { NextIsTag(a, s); }
      if |b[0].text| < |a[0].text| { NextIsTag(b, s); }
    } else if a[0].kind != Plain && b[0].kind != Plain {
      OneTag(s, a[0].kind, |a[0].text|, b[0].kind, |b[0].text|);
    }
  }

  lemma {:induction false} TilesUnique(a: seq<Atom>, b: seq<Atom>, s: string)
    requires Tiles(a, s) && Tiles(b, s)
    ensures a == b
  {
    hide BeginsTag, StartsTag;
    if a != [] && b != [] {
      FirstAtomUnique(a, b, s);
      TilesUnique(a[1..], b[1..], s[|a[0].text|..]);
      assert a == [a[0]] + a[1..] && b == [b[0]] + b[1..];
    }
  }

  /** Where a plain atom ends before the text does, a tag starts. */
  lemma NextIsTag(atoms: seq<Atom>, s: string)
    requires atoms != [] && Tiles(atoms, s) && atoms[0].kind == Plain && |atoms[0].text| < |s|
    ensures StartsTag(s[|atoms[0].text|..])
  {
    hide BeginsTag;
    assert |atoms| > 1;
    assert atoms[1..][0] == atoms[1];
  }

  /** The atoms concatenate back to the text, and they are the only tiling of it. */
  lemma AtomizeTiles(s: string, atoms: seq<Atom>)
    ensures Concat(Texts(Atoms(s, ""))) == s
    ensures Tiles(atoms, s) <==> atoms == Atoms(s, "")
  {
    hide StartsTag, BeginsTag;
    assert "" + s == s;
    AtomsTile(s, "");
    hide Tiles, Atoms;
    TilesConcat(Atoms(s, ""), s);
    if Tiles(atoms, s) { TilesUnique(atoms, Atoms(s, ""), s); }
  }

  /** The atom stands in s at `from`: as the tag that begins there, or as text within which no tag begins. */
  ghost predicate StandsAt(a: Atom, s: string, from: nat) {
    && from + |a.text| <= |s| && s[from..from + |a.text|] == a.text
    && (if a.kind == Plain then forall i :: from <= i < from + |a.text| ==> !StartsTag(s[i..])
        else BeginsTag(s[from..], a.kind, |a.text|))
  }

  lemma StandsLater(a: Atom, s: string, cut: nat, from: nat)
    requires cut <= |s| && StandsAt(a, s[cut..], from)
    ensures StandsAt(a, s, cut + from)
  {
    hide BeginsTag, StartsTag;
    var rest := s[cut..];
    forall i | from <= i <= |rest| ensures rest[i..] == s[cut + i..] {}
    forall i | cut + from <= i < cut + from + |a.text| && a.kind == Plain ensures !StartsTag(s[i..]) {
      assert rest[i - cut..] == s[i..];
    }
  }

  lemma FirstStands(atoms: seq<Atom>, s: string)
    requires Tiles(atoms, s) && atoms != []
    ensures StandsAt(atoms[0], s, 0)
  {
    hide BeginsTag, StartsTag;
    assert s[0..] == s;
  }

  /** No tag of the text begins within a plain atom, and every other atom is the tag that begins where it stands. */
  lemma {:induction false} TagsStayWhole(atoms: seq<Atom>, s: string, n: nat)
    requires Tiles(atoms, s) && n < |atoms|
    ensures StandsAt(atoms[n], s, |Concat(Texts(atoms[..n]))|)
  {
    hide BeginsTag, StartsTag, StandsAt;
    FirstStands(atoms, s);
    if n == 0 {
      assert atoms[..0] == [];
    } else {
      var first := atoms[0].text;
      TagsStayWhole(atoms[1..], s[|first|..], n - 1);
      assert atoms[..n] == [atoms[0]] + atoms[1..][..n - 1];
      assert Texts(atoms[..n])[1..] == Texts(atoms[1..][..n - 1]);
      StandsLater(atoms[n], s, |first|, |Concat(Texts(atoms[1..][..n - 1]))|);
    }
  }

  // ---- _split_text_segment ----

  /** The text cut after each occurrence of sep. */
  function Pieces(text: string, sep: string): (r: seq<string>)
    requires sep != ""
    ensures Concat(r) == text && (forall p :: p in r ==> p != "")
    decreases |text|
  {
    var at := Find(text, sep);
    if text == "" then []
    else if at.None? then
      assert [text][1..] == [];
      [text]
    else
      var end := at.value + |sep|;
      var rest := Pieces(text[end..], sep);
      assert text == text[..end] + text[end..];
      assert ([text[..end]] + rest)[1..] == rest;
      [text[..end]] + rest
  }

  /** Each piece goes up to the first separator in it, and only the last may have none. */
  ghost predicate IsPiece(p: string, sep: string, last: bool) {
    (|sep| <= |p| && FirstFrom(p, sep, 0, |p| - |sep|)) || (last && forall j: nat :: !At(p, sep, j))
  }

  lemma {:induction false} PiecesEndAtSeparators(text: string, sep: string, i: nat)
    requires sep != "" && i < |Pieces(text, sep)|
    ensures IsPiece(Pieces(text, sep)[i], sep, i == |Pieces(text, sep)| - 1)
    decreases |text|
  {
    hide Find, At;
    var at := Find(text, sep);
    if at.Some? {
      AtFits(text, sep, at.value);
      var end := at.value + |sep|;
      var first, rest := text[..end], text[end..];
      assert Pieces(text, sep) == [first] + Pieces(rest, sep);
      if i == 0 {
        assert text == first + rest;
        forall j: nat | j <= at.value ensures At(first, sep, j) <==> At(text, sep, j) { AtPrefix(first, rest, sep, j); }
      } else {
        PiecesEndAtSeparators(rest, sep, i - 1);
      }
    }
  }

  method SplitKeeping(text: string, sep: string) returns (parts: seq<string>)
    requires sep != ""
    ensures parts == Pieces(text, sep)
  {
    hide Pieces;
    parts := [];
    var rest := text;
    while rest != ""
      invariant parts + Pieces(rest, sep) == Pieces(text, sep)
      decreases |rest|
    {
      PieceByPiece(parts, rest, sep);
      var at := Find(rest, sep);
      if at.None? {
        parts := parts + [rest];
        rest := "";
      } else {
        var end := at.value + |sep|;
        parts := parts + [rest[..end]];
        rest := rest[end..];
      }
    }
    PieceByPiece(parts, rest, sep);
  }

  lemma PieceByPiece(parts: seq<string>, rest: string, sep: string)
    requires sep != ""
    ensures
      var at := Find(rest, sep);
      parts + Pieces(rest, sep) ==
        if rest == "" then parts
        else if at.None? then parts + [rest] + Pieces("", sep)
        else parts + [rest[..at.value + |sep|]] + Pieces(rest[at.value + |sep|..], sep)
  {
    var at, pieces := Find(rest, sep), Pieces(rest, sep);
    var end := if at.None? then |rest| else at.value + |sep|;
    var later := Pieces(rest[end..], sep);
    assert rest != "" ==> pieces == [rest[..end]] + later by {
      if at.None? { assert rest[..end] == rest && rest[end..] == "" && [rest] + [] == [rest]; }
    }
    assert rest == "" ==> pieces == [];
    assert at.None? ==> rest[..end] == rest && rest[end..] == "";
    hide Pieces, Find, At;
    Shift(parts, rest[..end], later);
  }

  lemma Shift(a: seq<string>, x: string, b: seq<string>)
    ensures a + ([x] + b) == a + [x] + b && a + [] == a
  {
  }

  predicate Splits(text: string, sep: string) {
    sep != "" && |Pieces(text, sep)| > 1
  }

  /** A separator cuts exactly if it occurs before the end of the text. */
  lemma SplitsIff(text: string, sep: string)
    ensures Splits(text, sep) <==> sep != "" && exists j: nat :: At(text, sep, j) && j + |sep| < |text|
  {
    hide Find;
    if sep != "" && Find(text, sep).Some? {
      var end := Find(text, sep).value + |sep|;
      assert Pieces(text, sep) == [text[..end]] + Pieces(text[end..], sep);
      assert Pieces(text[end..], sep) == [] <==> text[end..] == "";
    }
  }

  /** The segments of the first separator that cuts at all. */
  function FirstSplit(text: string, separators: seq<string>): (r: seq<string>)
    ensures Concat(r) == text && r != []
    ensures if |r| == 1 then r == [text] else forall p :: p in r ==> p != ""
  {
    assert [text][1..] == [] && text + "" == text;
    if separators == [] then [text]
    else if Splits(text, separators[0]) then Pieces(text, separators[0])
    else FirstSplit(text, separators[1..])
  }

  method SplitTextSegment(text: string, separators: seq<string>) returns (segments: seq<string>, used: nat)
    ensures segments == FirstSplit(text, separators) && used <= |separators|
    ensures forall j :: 0 <= j < used ==> !Splits(text, separators[j])
    ensures if used < |separators| then Splits(text, separators[used]) else segments == [text]
    ensures used < |separators| ==> segments == Pieces(text, separators[used])
  {
    for i := 0 to |separators|
      invariant forall j :: 0 <= j < i ==> !Splits(text, separators[j])
      invariant FirstSplit(text, separators[i..]) == FirstSplit(text, separators)
    {
      assert separators[i..][1..] == separators[i + 1..];
      if separators[i] != "" {
        var parts := SplitKeeping(text, separators[i]);
        if |parts| > 1 { return parts, i; }
      }
    }
    return [text], |separators|;
  }

  // ---- _accumulate_text_leading, _accumulate_text_trailing ----

  /** The last (first) k segments. */
  function Taken(segments: seq<string>, k: nat, leading: bool): string
    requires k <= |segments|
  {
    Concat(Slice(segments, k, leading))
  }

  function Joint(piece: string, existing: string, leading: bool): string {
    if leading then piece + existing else existing + piece
  }

  predicate IsEnd(piece: string, text: string, leading: bool) {
    if leading then IsSuffix(piece, text) else IsPrefix(piece, text)
  }

  /** The piece is the k segments next to the target, and one more does not fit. */
  ghost predicate TakesUpTo(segments: seq<string>, existing: string, piece: string, max: nat, leading: bool,
                            count: Tokenizer, k: nat) {
    && 0 < k <= |segments| && piece == Taken(segments, k, leading)
    && (k < |segments| ==> count(Joint(Taken(segments, k + 1, leading), existing, leading)) > max)
  }

  /** As many whole segments as fit, counted from the target, when the closest one fits. */
  ghost predicate Greedy(segments: seq<string>, existing: string, piece: string, max: nat, leading: bool,
                         count: Tokenizer) {
    segments != [] && count(Joint(Taken(segments, 1, leading), existing, leading)) <= max ==>
      exists k :: TakesUpTo(segments, existing, piece, max, leading, count, k)
  }

  lemma TakenMore(segments: seq<string>, k: nat, leading: bool)
    requires k < |segments|
    ensures Taken(segments, k + 1, leading)
         == if leading then segments[|segments| - k - 1] + Taken(segments, k, leading)
           else Taken(segments, k, leading) + segments[k]
  {
    if leading {
      assert Slice(segments, k + 1, true)[1..] == Slice(segments, k, true);
    } else {
      assert segments[..k + 1] == segments[..k] + [segments[k]];
      ConcatAppend(segments[..k], [segments[k]]);
      assert [segments[k]][1..] == [] && segments[k] + "" == segments[k];
    }
  }

  lemma TakenIsEnd(segments: seq<string>, k: nat, leading: bool)
    requires k <= |segments|
    ensures IsEnd(Taken(segments, k, leading), Concat(segments), leading)
  {
    var cut := if leading then |segments| - k else k;
    assert segments == segments[..cut] + segments[cut..];
    ConcatAppend(segments[..cut], segments[cut..]);
  }

  lemma EndOfEnd(a: string, b: string, c: string, leading: bool)
    requires IsEnd(a, b, leading) && IsEnd(b, c, leading)
    ensures IsEnd(a, c, leading)
  {
  }

  ghost predicate EndMonotone(count: Tokenizer, text: string, leading: bool) {
    if leading then SuffixMonotone(count, text) else PrefixMonotone(count, text)
  }

  /** Not even one more character fits, as far as a monotone tokenizer can tell. */
  ghost predicate Stuck(text: string, existing: string, max: nat, leading: bool, count: Tokenizer) {
    || text == "" || count(existing) >= max
    || (EndMonotone(count, text, leading) ==>
          count(existing) + count(if leading then text[|text| - 1..] else text[..1]) > max)
  }

  lemma StuckInside(inner: string, text: string, existing: string, max: nat, leading: bool, count: Tokenizer)
    requires inner != "" && IsEnd(inner, text, leading) && Stuck(inner, existing, max, leading, count)
    ensures Stuck(text, existing, max, leading, count)
  {
    if EndMonotone(count, text, leading) {
      if leading {
        assert forall i :: 0 <= i <= |inner| ==> inner[i..] == text[|text| - |inner| + i..];
      } else {
        assert forall i :: 0 <= i <= |inner| ==> inner[..i] == text[..i];
      }
      assert EndMonotone(count, inner, leading);
    }
  }

  lemma TakenIsNonEmpty(segments: seq<string>, k: nat, leading: bool)
    requires 0 < k <= |segments| && forall p :: p in segments ==> p != ""
    ensures Taken(segments, k, leading) != ""
  {
    var slice := Slice(segments, k, leading);
    assert slice[0] in segments;
  }

  lemma ClosestSegment(segments: seq<string>, leading: bool)
    requires segments != []
    ensures Taken(segments, 0, leading) == ""
    ensures Taken(segments, 1, leading) == if leading then segments[|segments| - 1] else segments[0]
    ensures Taken(segments, |segments|, leading) == Concat(segments)
  {
    hide Slice;
    ClosestSlices(segments, leading);
    ConcatOne(if leading then segments[|segments| - 1] else segments[0]);
  }

  lemma ClosestSlices(segments: seq<string>, leading: bool)
    requires segments != []
    ensures Slice(segments, 0, leading) == [] && Slice(segments, |segments|, leading) == segments
    ensures Slice(segments, 1, leading) == [if leading then segments[|segments| - 1] else segments[0]]
  {
  }

  /** The segment closest to the target does not fit. */
  ghost predicate Overflows(text: string, separators: seq<string>, existing: string, max: nat, leading: bool,
                            count: Tokenizer) {
    text == "" || count(Joint(Taken(FirstSplit(text, separators), 1, leading), existing, leading)) > max
  }

  /** Add as much of the text as fits next to the target: whole segments, then segments of a weaker separator, then
      characters. Nothing is added only if not even a character fits. */
  method AccumulateText(text: string, existing: string, max: nat, separators: seq<string>, leading: bool,
                        count: Tokenizer)
    returns (r: Option<string>)
    requires IsTokenizer(count)
    ensures r.Some? ==>
      r.value != "" && IsEnd(r.value, text, leading) && count(Joint(r.value, existing, leading)) <= max
    ensures r.Some? ==> Greedy(FirstSplit(text, separators), existing, r.value, max, leading, count)
    ensures r.None? ==>
      Stuck(text, existing, max, leading, count) && Overflows(text, separators, existing, max, leading, count)
    decreases 2 * |separators| + 1
  {
    hide FirstSplit, Splits, Pieces, Taken, Stuck, IsEnd, IsTokenizer, Joint, Concat;
    var segments, used := SplitTextSegment(text, separators);
    ClosestSegment(segments, leading);
    var k, buf := 0, "";
    while k < |segments|
      invariant k <= |segments| && buf == Taken(segments, k, leading)
      invariant k > 0 ==> count(Joint(buf, existing, leading)) <= max
    {
      TakenMore(segments, k, leading);
      var next := if leading then segments[|segments| - 1 - k] else segments[k];
      var candidate := if leading then next + buf else buf + next;
      if count(Joint(candidate, existing, leading)) > max {
        if k > 0 { TakenIsNonEmpty(segments, k, leading); }
        TakenIsEnd(segments, k, leading);
        if buf != "" {
          assert TakesUpTo(segments, existing, buf, max, leading, count, k);
          return Some(buf);
        }
        TakenIsEnd(segments, 1, leading);
        assert candidate == next;
        var weaker := if used < |separators| then separators[used + 1..] else [];
        r := AccumulateWithin(next, existing, max, weaker, leading, count);
        if r.Some? {
          EndOfEnd(r.value, next, text, leading);
        } else if next == "" {
          assert next in segments && text == "";
          EmptyIsStuck(existing, max, leading, count);
        } else {
          StuckInside(next, text, existing, max, leading, count);
        }
        return;
      }
      buf := candidate;
      k := k + 1;
    }
    TakenIsEnd(segments, |segments|, leading);
    if buf == "" {
      EmptyIsStuck(existing, max, leading, count);
      return None;
    }
    assert TakesUpTo(segments, existing, buf, max, leading, count, k);
    return Some(buf);
  }

  lemma EmptyIsStuck(existing: string, max: nat, leading: bool, count: Tokenizer)
    ensures Stuck("", existing, max, leading, count)
  {
  }

  /** The closest segment alone overflows. */
  method AccumulateWithin(segment: string, existing: string, max: nat, weaker: seq<string>, leading: bool,
                          count: Tokenizer)
    returns (r: Option<string>)
    requires IsTokenizer(count)
    ensures r.Some? ==>
      r.value != "" && IsEnd(r.value, segment, leading) && count(Joint(r.value, existing, leading)) <= max
    ensures r.None? ==> Stuck(segment, existing, max, leading, count)
    decreases if weaker == [] then 0 else 2 * |weaker| + 2
  {
    if weaker != [] {
      r := AccumulateText(segment, existing, max, weaker, leading, count);
      return;
    }
    if max <= count(existing) { return None; }
    var trimmed;
    if leading {
      trimmed := CharTrimLeading(segment, max - count(existing), count);
    } else {
      trimmed := CharTrimTrailing(segment, max - count(existing), count);
    }
    return if trimmed == "" then None else Some(trimmed);
  }

  // ---- _build_leading, _build_trailing ----

  /** The tokenizer, the cleaning functions applied before anything is counted, and how a table tag is read. */
  datatype Env = Env(
    count: Tokenizer,
    clean: string -> string,
    dropTables: string -> string,
    view: string -> TableView,
    codec: Codec)

  /** Atoms are visited outwards from the target. */
  function Visited(atoms: seq<Atom>, i: nat, leading: bool): Atom
    requires i < |atoms|
  {
    if leading then atoms[|atoms| - 1 - i] else atoms[i]
  }

  /** The pieces joined, the one closest to the target first in the list. */
  function Assemble(pieces: seq<string>, leading: bool): string {
    if pieces == [] then "" else Joint(pieces[|pieces| - 1], Assemble(pieces[..|pieces| - 1], leading), leading)
  }

  /** What one atom contributes next to what is there: tags whole, a table whole or trimmed, text an end of it. */
  ghost predicate Contributes(a: Atom, before: string, piece: string, max: nat, separators: seq<string>, leading: bool,
                              env: Env) {
    match a.kind
    case Plain =>
      piece != "" && IsEnd(piece, a.text, leading)
      && Greedy(FirstSplit(a.text, separators), before, piece, max, leading, env.count)
    case TableTag =>
      piece == a.text
      || (IsTrimmed(env.view(a.text), piece, leading, env.codec) && env.count(Joint(a.text, before, leading)) > max)
    case _ => piece == a.text
  }

  ghost predicate ContributesAt(atoms: seq<Atom>, pieces: seq<string>, i: nat, max: nat, separators: seq<string>,
                                leading: bool, env: Env)
    requires i < |pieces| <= |atoms|
  {
    Contributes(Visited(atoms, i, leading), Assemble(pieces[..i], leading), pieces[i], max, separators, leading, env)
  }

  predicate IsWhole(atoms: seq<Atom>, pieces: seq<string>, i: nat, leading: bool)
    requires i < |pieces| <= |atoms|
  {
    Visited(atoms, i, leading).kind == TableTag ==> pieces[i] == Visited(atoms, i, leading).text
  }

  /** The first |pieces| atoms each contribute their piece, within the budget; only the last may be a trimmed table. */
  ghost predicate Walked(atoms: seq<Atom>, pieces: seq<string>, max: nat, separators: seq<string>, leading: bool,
                         env: Env) {
    && |pieces| <= |atoms|
    && (forall i :: 0 <= i < |pieces| ==> ContributesAt(atoms, pieces, i, max, separators, leading, env))
    && (forall i :: 0 <= i < |pieces| - 1 ==> IsWhole(atoms, pieces, i, leading))
    && env.count(Assemble(pieces, leading)) <= max
  }

  /** Why the walk ends: no atoms left, budget used up, a tag that does not fit, or text of which nothing fits. */
  ghost predicate Ended(atoms: seq<Atom>, pieces: seq<string>, max: nat, separators: seq<string>, leading: bool,
                        env: Env)
    requires |pieces| <= |atoms|
  {
    var built, n := Assemble(pieces, leading), |pieces|;
    || n == |atoms| || env.count(built) >= max
    || (n > 0 && Visited(atoms, n - 1, leading).kind == TableTag
         && pieces[n - 1] != Visited(atoms, n - 1, leading).text)
    || (Visited(atoms, n, leading).kind == Plain
        && Stuck(Visited(atoms, n, leading).text, built, max, leading, env.count)
        && Overflows(Visited(atoms, n, leading).text, separators, built, max, leading, env.count))
    || (Visited(atoms, n, leading).kind != Plain && env.count(Joint(Visited(atoms, n, leading).text, built,
         leading)) > max)
  }

  /** The walk over the atoms builds r. */
  ghost predicate Builds(atoms: seq<Atom>, r: string, max: nat, separators: seq<string>, leading: bool, env: Env) {
    exists pieces {:trigger Assemble(pieces, leading)} ::
      Walked(atoms, pieces, max, separators, leading, env) && Ended(atoms, pieces, max, separators, leading, env)
        && r == Assemble(pieces, leading)
  }

  lemma WalkOn(atoms: seq<Atom>, pieces: seq<string>, piece: string, max: nat, separators: seq<string>, leading: bool,
               env: Env)
    requires Walked(atoms, pieces, max, separators, leading, env) && |pieces| < |atoms|
    requires pieces != [] ==> IsWhole(atoms, pieces, |pieces| - 1, leading)
    requires Contributes(Visited(atoms, |pieces|, leading), Assemble(pieces, leading), piece, max, separators, leading,
      env)
    requires env.count(Joint(piece, Assemble(pieces, leading), leading)) <= max
    ensures Walked(atoms, pieces + [piece], max, separators, leading, env)
    ensures Assemble(pieces + [piece], leading) == Joint(piece, Assemble(pieces, leading), leading)
  {
    hide Contributes, Joint;
    var longer := pieces + [piece];
    assert longer[..|pieces|] == pieces;
    assert Assemble(longer, leading) == Joint(piece, Assemble(pieces, leading), leading);
    hide Assemble, Visited;
    forall i | 0 <= i < |longer| ensures ContributesAt(atoms, longer, i, max, separators, leading, env) {
      if i < |pieces| {
        assert ContributesAt(atoms, pieces, i, max, separators, leading, env);
        assert longer[..i] == pieces[..i] && longer[i] == pieces[i];
      }
    }
    forall i | 0 <= i < |longer| - 1 ensures IsWhole(atoms, longer, i, leading) {
      assert IsWhole(atoms, pieces, i, leading);
    }
  }

  lemma WholeContributes(a: Atom, before: string, piece: string, max: nat, separators: seq<string>, leading: bool,
                         env: Env)
    requires if a.kind == Plain then
               piece != "" && IsEnd(piece, a.text, leading)
               && Greedy(FirstSplit(a.text, separators), before, piece, max, leading, env.count)
             else piece == a.text
    ensures Contributes(a, before, piece, max, separators, leading, env)
  {
    hide Greedy, FirstSplit, IsTrimmed;
  }

  lemma TrimmedContributes(a: Atom, before: string, piece: string, max: nat, separators: seq<string>, leading: bool,
                           env: Env)
    requires IsTokenizer(env.count) && a.kind == TableTag && IsTrimmed(env.view(a.text), piece, leading, env.codec)
    requires env.count(Joint(a.text, before, leading)) > max
    requires env.count(piece) + env.count(before) <= max
    ensures Contributes(a, before, piece, max, separators, leading, env)
    ensures env.count(Joint(piece, before, leading)) <= max
  {
    hide IsTrimmed, Greedy, FirstSplit;
  }

  /** The walk stops before an atom that does not fit. */
  lemma EndsHere(atoms: seq<Atom>, pieces: seq<string>, max: nat, separators: seq<string>, leading: bool, env: Env)
    requires |pieces| < |atoms|
    requires
      var a, built := Visited(atoms, |pieces|, leading), Assemble(pieces, leading);
      if a.kind == Plain then
        Stuck(a.text, built, max, leading, env.count) && Overflows(a.text, separators, built, max, leading, env.count)
      else env.count(Joint(a.text, built, leading)) > max
    ensures Ended(atoms, pieces, max, separators, leading, env)
  {
    hide Stuck, Overflows, Joint, Assemble;
  }

  /** Or after a table that had to be trimmed. */
  lemma TrimmedEnds(atoms: seq<Atom>, pieces: seq<string>, max: nat, separators: seq<string>, leading: bool, env: Env)
    requires 0 < |pieces| <= |atoms| && Visited(atoms, |pieces| - 1, leading).kind == TableTag
    requires pieces[|pieces| - 1] != Visited(atoms, |pieces| - 1, leading).text
    ensures Ended(atoms, pieces, max, separators, leading, env)
  {
    hide Stuck, Overflows, Joint, Assemble;
  }

  /** Or with the budget used up, or at the last atom. */
  lemma FullEnds(atoms: seq<Atom>, pieces: seq<string>, max: nat, separators: seq<string>, leading: bool, env: Env)
    requires |pieces| <= |atoms| && (|pieces| == |atoms| || env.count(Assemble(pieces, leading)) >= max)
    ensures Ended(atoms, pieces, max, separators, leading, env)
  {
    hide Stuck, Overflows, Joint, Assemble;
  }

  lemma {:induction false} TilesAreNonEmpty(atoms: seq<Atom>, s: string)
    requires Tiles(atoms, s)
    ensures forall a :: a in atoms ==> a.text != ""
  {
    hide BeginsTag, StartsTag;
    if atoms != [] {
      TilesAreNonEmpty(atoms[1..], s[|atoms[0].text|..]);
      assert atoms == [atoms[0]] + atoms[1..];
    }
  }

  /** One side of the surroundings: within its budget, and in order the parts of the text next to the target. For the
      surroundings of a table, other tables are dropped before the text is cleaned. */
  method BuildSide(source: string, tables: bool, max: int, separators: seq<string>, leading: bool, env: Env)
    returns (r: string)
    requires IsTokenizer(env.count)
    ensures max <= 0 || source == "" || (tables && env.dropTables(source) == "") ==> r == ""
    ensures max > 0 ==> env.count(r) <= max
    ensures max > 0 && source != "" && !(tables && env.dropTables(source) == "") ==>
      var text := env.clean(if tables then env.dropTables(source) else source);
      forall atoms :: Tiles(atoms, text) ==> Builds(atoms, r, max, separators, leading, env)
  {
    hide Tiles, Builds;
    if source == "" || max <= 0 { return ""; }
    var text := source;
    if tables {
      text := env.dropTables(text);
      if text == "" { return ""; }
    }
    text := env.clean(text);
    var atoms := Atomize(text);
    TilesAreNonEmpty(atoms, text);
    r := BuildFromAtoms(atoms, max, separators, leading, env);
    forall other | Tiles(other, text) ensures other == atoms { AtomizeTiles(text, other); }
  }

  method BuildFromAtoms(atoms: seq<Atom>, max: nat, separators: seq<string>, leading: bool, env: Env)
    returns (r: string)
    requires IsTokenizer(env.count) && max > 0 && forall a :: a in atoms ==> a.text != ""
    ensures env.count(r) <= max
    ensures Builds(atoms, r, max, separators, leading, env)
  {
    hide Contributes, IsTrimmed, Greedy, Joint, Ended, Stuck, Walked, FirstSplit, IsEnd;
    r := "";
    ghost var pieces: seq<string> := [];
    assert Walked(atoms, pieces, max, separators, leading, env) by {
      NothingWalked(atoms, max, separators, leading, env);
    }
    for n := 0 to |atoms|
      invariant n == |pieces| && Walked(atoms, pieces, max, separators, leading, env) && r == Assemble(pieces, leading)
      invariant env.count(r) <= max && (n > 0 ==> IsWhole(atoms, pieces, n - 1, leading))
    {
      var a := Visited(atoms, n, leading);
      assert a in atoms;
      var piece := a.text;
      if a.kind == Plain {
        var addition := AccumulateText(a.text, r, max, separators, leading, env.count);
        if addition.None? { EndsHere(atoms, pieces, max, separators, leading, env); return; }
        piece := addition.value;
      } else if env.count(Joint(a.text, r, leading)) > max {
        r, pieces := AddTrimmed(a, atoms, pieces, r, max, separators, leading, env);
        return;
      }
      WholeContributes(a, r, piece, max, separators, leading, env);
      WalkOn(atoms, pieces, piece, max, separators, leading, env);
      pieces := pieces + [piece];
      r := Joint(piece, r, leading);
      if a.kind == Plain && env.count(r) >= max { FullEnds(atoms, pieces, max, separators, leading, env); return; }
    }
    FullEnds(atoms, pieces, max, separators, leading, env);
  }

  lemma NothingWalked(atoms: seq<Atom>, max: nat, separators: seq<string>, leading: bool, env: Env)
    requires IsTokenizer(env.count)
    ensures Walked(atoms, [], max, separators, leading, env)
  {
  }

  /** A tag that does not fit ends the walk; of a table, as many rows as fit are still taken. */
  method AddTrimmed(a: Atom, ghost atoms: seq<Atom>, ghost pieces: seq<string>, built: string, max: nat,
                    separators: seq<string>, leading: bool, env: Env)
    returns (r: string, ghost more: seq<string>)
    requires IsTokenizer(env.count) && Walked(atoms, pieces, max, separators, leading, env)
    requires built == Assemble(pieces, leading)
    requires |pieces| < |atoms| && env.count(built) <= max
    requires pieces != [] ==> IsWhole(atoms, pieces, |pieces| - 1, leading)
    requires a == Visited(atoms, |pieces|, leading) && a.kind != Plain && env.count(Joint(a.text, built, leading)) > max
    ensures env.count(r) <= max && Walked(atoms, more, max, separators, leading, env)
    ensures |more| <= |atoms| && Ended(atoms, more, max, separators, leading, env) && r == Assemble(more, leading)
  {
    hide Contributes, IsTrimmed, Joint, Ended, Stuck, Walked;
    EndsHere(atoms, pieces, max, separators, leading, env);
    r, more := built, pieces;
    if a.kind == TableTag && max > env.count(built) {
      var trimmed := RowTrimTable(env.view(a.text), max - env.count(built), leading, env.codec, env.count);
      if trimmed.Some? {
        TrimmedContributes(a, built, trimmed.value, max, separators, leading, env);
        WalkOn(atoms, pieces, trimmed.value, max, separators, leading, env);
        r, more := Joint(trimmed.value, built, leading), pieces + [trimmed.value];
        TrimmedEnds(atoms, more, max, separators, leading, env);
      }
    }
  }

  // ---- Contiguity ----

  /** What the visited atoms make up, next to the target. */
  function Span(atoms: seq<Atom>, n: nat, leading: bool): string
    requires n <= |atoms|
  {
    if n == 0 then "" else Joint(Visited(atoms, n - 1, leading).text, Span(atoms, n - 1, leading), leading)
  }

  lemma {:induction false} SpanIsEnd(atoms: seq<Atom>, n: nat, leading: bool)
    requires n <= |atoms|
    ensures Span(atoms, n, leading) == Concat(Texts(if leading then atoms[|atoms| - n..] else atoms[..n]))
  {
    if n > 0 {
      SpanIsEnd(atoms, n - 1, leading);
      if leading {
        assert atoms[|atoms| - n..][1..] == atoms[|atoms| - (n - 1)..];
      } else {
        assert atoms[..n] == atoms[..n - 1] + [atoms[n - 1]];
        TextsAppend(atoms[..n - 1], [atoms[n - 1]]);
        assert Texts([atoms[n - 1]]) == [atoms[n - 1].text];
        ConcatAppend(Texts(atoms[..n - 1]), [atoms[n - 1].text]);
        assert [atoms[n - 1].text][1..] == [] && atoms[n - 1].text + "" == atoms[n - 1].text;
      }
    }
  }

  lemma TextsFirst(a: Atom, rest: seq<Atom>)
    ensures Texts([a] + rest) == [a.text] + Texts(rest)
  {
    assert ([a] + rest)[1..] == rest;
  }

  lemma TextsNothing()
    ensures Texts([]) == []
  {
  }

  lemma Associative(a: seq<string>, b: seq<string>, c: seq<string>)
    ensures a + (b + c) == a + b + c
  {
  }

  lemma {:induction false} TextsAppend(a: seq<Atom>, b: seq<Atom>)
    ensures Texts(a + b) == Texts(a) + Texts(b)
  {
    hide Texts;
    TextsNothing();
    if a == [] {
      assert a + b == b;
    } else {
      TextsAppend(a[1..], b);
      TextsFirst(a[0], a[1..] + b);
      TextsFirst(a[0], a[1..]);
      assert a == [a[0]] + a[1..] && a + b == [a[0]] + (a[1..] + b);
      Associative([a[0].text], Texts(a[1..]), Texts(b));
    }
  }

  lemma {:induction false} WholePiecesSpan(atoms: seq<Atom>, pieces: seq<string>, leading: bool)
    requires |pieces| <= |atoms| && forall i :: 0 <= i < |pieces| ==> pieces[i] == Visited(atoms, i, leading).text
    ensures Assemble(pieces, leading) == Span(atoms, |pieces|, leading)
  {
    if pieces != [] {
      WholePiecesSpan(atoms, pieces[..|pieces| - 1], leading);
    }
  }

  lemma {:induction false} SpanTiles(atoms: seq<Atom>, n: nat, leading: bool)
    requires n <= |atoms|
    ensures IsEnd(Span(atoms, n, leading), Concat(Texts(atoms)), leading)
  {
    SpanIsEnd(atoms, n, leading);
    var cut := if leading then |atoms| - n else n;
    assert atoms == atoms[..cut] + atoms[cut..];
    TextsAppend(atoms[..cut], atoms[cut..]);
    ConcatAppend(Texts(atoms[..cut]), Texts(atoms[cut..]));
  }

  /** If only the last atom contributed less than all of its text, the result is one contiguous end of the text. */
  lemma ContiguousIfOnlyLastIsPartial(atoms: seq<Atom>, pieces: seq<string>, leading: bool)
    requires 0 < |pieces| <= |atoms| && IsEnd(pieces[|pieces| - 1], Visited(atoms, |pieces| - 1, leading).text, leading)
    requires forall i :: 0 <= i < |pieces| - 1 ==> pieces[i] == Visited(atoms, i, leading).text
    ensures IsEnd(Assemble(pieces, leading), Concat(Texts(atoms)), leading)
  {
    var n := |pieces| - 1;
    WholePiecesSpan(atoms, pieces[..n], leading);
    SpanTiles(atoms, n + 1, leading);
    JointIsEnd(pieces[n], Visited(atoms, n, leading).text, Span(atoms, n, leading), leading);
    EndOfEnd(Assemble(pieces, leading), Span(atoms, n + 1, leading), Concat(Texts(atoms)), leading);
  }

  lemma JointIsEnd(piece: string, text: string, near: string, leading: bool)
    requires IsEnd(piece, text, leading)
    ensures IsEnd(Joint(piece, near, leading), Joint(text, near, leading), leading)
  {
  }

  lemma OneTextIsContiguous(text: string, r: string, max: nat, separators: seq<string>, leading: bool, env: Env)
    requires Builds([Atom(Plain, text)], r, max, separators, leading, env)
    ensures IsEnd(r, text, leading)
  {
    hide Greedy, Ended;
    var atoms := [Atom(Plain, text)];
    var pieces :| Walked(atoms, pieces, max, separators, leading, env)
      && Ended(atoms, pieces, max, separators, leading, env)
                  && r == Assemble(pieces, leading);
    if pieces != [] {
      assert ContributesAt(atoms, pieces, 0, max, separators, leading, env);
      ContiguousIfOnlyLastIsPartial(atoms, pieces, leading);
      assert Texts(atoms) == [text] && [text][1..] == [] && text + "" == text;
    }
  }

  /** Every end of the text counts less than the cap, the whole text at most as much. */
  ghost predicate EndsFit(text: string, max: nat, leading: bool, count: Tokenizer) {
    forall e :: IsEnd(e, text, leading) ==> count(e) <= max && (|e| < |text| ==> count(e) < max)
  }

  lemma SpanFits(atoms: seq<Atom>, n: nat, max: nat, leading: bool, count: Tokenizer)
    requires EndsFit(Concat(Texts(atoms)), max, leading, count) && n < |atoms| && forall a :: a in atoms ==>
      a.text != ""
    ensures count(Span(atoms, n, leading)) < max && count(Span(atoms, n + 1, leading)) <= max
  {
    hide IsEnd;
    SpanTiles(atoms, n, leading);
    SpanTiles(atoms, n + 1, leading);
    EndIsNoLonger(Span(atoms, n + 1, leading), Concat(Texts(atoms)), leading);
    assert Visited(atoms, n, leading) in atoms;
    assert |Span(atoms, n, leading)| < |Span(atoms, n + 1, leading)|;
  }

  lemma EndIsNoLonger(a: string, b: string, leading: bool)
    requires IsEnd(a, b, leading)
    ensures |a| <= |b|
  {
  }

  /** Any number of segments next to what is there fits. */
  lemma SegmentsFit(atoms: seq<Atom>, n: nat, separators: seq<string>, k: nat, max: nat, leading: bool,
                    count: Tokenizer)
    requires EndsFit(Concat(Texts(atoms)), max, leading, count) && n < |atoms|
    requires k <= |FirstSplit(Visited(atoms, n, leading).text, separators)|
    ensures
      count(Joint(Taken(FirstSplit(Visited(atoms, n, leading).text, separators), k, leading),
                  Span(atoms, n, leading), leading)) <= max
  {
    hide IsEnd, Taken;
    var text := Visited(atoms, n, leading).text;
    var piece, near := Taken(FirstSplit(text, separators), k, leading), Span(atoms, n, leading);
    TakenIsEnd(FirstSplit(text, separators), k, leading);
    hide FirstSplit;
    JointIsEnd(piece, text, near, leading);
    SpanTiles(atoms, n + 1, leading);
    EndOfEnd(Joint(piece, near, leading), Joint(text, near, leading), Concat(Texts(atoms)), leading);
  }

  /** Where as many segments as any number of them fit, all of them are taken. */
  lemma GreedyTakesAll(segments: seq<string>, near: string, piece: string, max: nat, leading: bool, count: Tokenizer)
    requires segments != [] && Greedy(segments, near, piece, max, leading, count)
    requires forall k :: 0 < k <= |segments| ==> count(Joint(Taken(segments, k, leading), near, leading)) <= max
    ensures piece == Concat(segments)
  {
    hide Joint, Taken, Concat;
    ClosestSegment(segments, leading);
    var k :| TakesUpTo(segments, near, piece, max, leading, count, k);
    assert k == |segments|;
  }

  /** Where everything fits, each visited atom contributes all of its text. */
  lemma PieceIsWhole(atoms: seq<Atom>, n: nat, piece: string, max: nat, separators: seq<string>, leading: bool,
                     env: Env)
    requires EndsFit(Concat(Texts(atoms)), max, leading, env.count) && n < |atoms| && forall a :: a in atoms ==>
      a.text != ""
    requires Contributes(Visited(atoms, n, leading), Span(atoms, n, leading), piece, max, separators, leading, env)
    ensures piece == Visited(atoms, n, leading).text
  {
    hide EndsFit, IsTrimmed, IsEnd, FirstSplit, Taken, Joint, Texts, Concat, Greedy, Visited;
    var a, near := Visited(atoms, n, leading), Span(atoms, n, leading);
    SpanFits(atoms, n, max, leading, env.count);
    assert Span(atoms, n + 1, leading) == Joint(a.text, near, leading);
    hide Span;
    if a.kind == Plain {
      var segments := FirstSplit(a.text, separators);
      forall k | 0 < k <= |segments| ensures env.count(Joint(Taken(segments, k, leading), near, leading)) <= max {
        SegmentsFit(atoms, n, separators, k, max, leading, env.count);
      }
      GreedyTakesAll(segments, near, piece, max, leading, env.count);
    }
  }

  lemma {:induction false} PiecesAreWhole(atoms: seq<Atom>, pieces: seq<string>, n: nat, max: nat,
                                          separators: seq<string>, leading: bool, env: Env)
    requires EndsFit(Concat(Texts(atoms)), max, leading, env.count) && forall a :: a in atoms ==> a.text != ""
    requires Walked(atoms, pieces, max, separators, leading, env) && n <= |pieces|
    ensures forall i :: 0 <= i < n ==> pieces[i] == Visited(atoms, i, leading).text
  {
    hide Contributes, EndsFit, IsEnd, Assemble, IsWhole, Span, Texts, Concat;
    if n > 0 {
      PiecesAreWhole(atoms, pieces, n - 1, max, separators, leading, env);
      assert ContributesAt(atoms, pieces, n - 1, max, separators, leading, env);
      hide Walked;
      var before := pieces[..n - 1];
      WholePiecesSpan(atoms, before, leading);
      PieceIsWhole(atoms, n - 1, pieces[n - 1], max, separators, leading, env);
    }
  }

  /** A text of which every end counts less than the cap, and which itself does not exceed it, is returned whole. */
  lemma EverythingFits(text: string, r: string, max: nat, separators: seq<string>, leading: bool, env: Env)
    requires EndsFit(text, max, leading, env.count) && Builds(Atoms(text, ""), r, max, separators, leading, env)
    ensures r == text
  {
    hide EndsFit, Ended, Walked, Atoms, Tiles;
    var atoms := Atoms(text, "");
    AtomizeTiles(text, atoms);
    TilesAreNonEmpty(atoms, text);
    assert IsBuilt(atoms, r, max, separators, leading, env) by {
      BuiltFromPieces(atoms, r, max, separators, leading, env);
    }
    var pieces :| IsBuiltOf(atoms, pieces, r, max, separators, leading, env);
    PiecesAreWhole(atoms, pieces, |pieces|, max, separators, leading, env);
    WholePiecesSpan(atoms, pieces, leading);
    if |pieces| < |atoms| { WalkGoesOn(atoms, pieces, max, separators, leading, env); }
    SpanIsEnd(atoms, |atoms|, leading);
    assert atoms[0..] == atoms && atoms[..|atoms|] == atoms;
  }

  ghost predicate IsBuiltOf(atoms: seq<Atom>, pieces: seq<string>, r: string, max: nat, separators: seq<string>,
                            leading: bool, env: Env) {
    && |pieces| <= |atoms| && Walked(atoms, pieces, max, separators, leading, env)
    && Ended(atoms, pieces, max, separators, leading, env) && r == Assemble(pieces, leading)
  }

  ghost predicate IsBuilt(atoms: seq<Atom>, r: string, max: nat, separators: seq<string>, leading: bool, env: Env) {
    exists pieces :: IsBuiltOf(atoms, pieces, r, max, separators, leading, env)
  }

  lemma BuiltFromPieces(atoms: seq<Atom>, r: string, max: nat, separators: seq<string>, leading: bool, env: Env)
    requires Builds(atoms, r, max, separators, leading, env)
    ensures IsBuilt(atoms, r, max, separators, leading, env)
  {
    hide ContributesAt, IsWhole, Ended, Assemble;
    var pieces :| Walked(atoms, pieces, max, separators, leading, env)
      && Ended(atoms, pieces, max, separators, leading, env)
                  && r == Assemble(pieces, leading);
    assert IsBuiltOf(atoms, pieces, r, max, separators, leading, env);
  }

  /** Nothing ends the walk before the last atom. */
  lemma WalkGoesOn(atoms: seq<Atom>, pieces: seq<string>, max: nat, separators: seq<string>, leading: bool, env: Env)
    requires EndsFit(Concat(Texts(atoms)), max, leading, env.count) && forall a :: a in atoms ==> a.text != ""
    requires |pieces| < |atoms| && forall i :: 0 <= i < |pieces| ==> pieces[i] == Visited(atoms, i, leading).text
    ensures !Ended(atoms, pieces, max, separators, leading, env)
  {
    hide EndsFit, Stuck, Taken, FirstSplit, Assemble, IsEnd, Texts, Concat, Joint;
    var n := |pieces|;
    WholePiecesSpan(atoms, pieces, leading);
    SpanFits(atoms, n, max, leading, env.count);
    SegmentsFit(atoms, n, separators, 1, max, leading, env.count);
    assert Visited(atoms, n, leading) in atoms;
    assert n > 0 ==> pieces[n - 1] == Visited(atoms, n - 1, leading).text;
    assert Span(atoms, n + 1, leading) == Joint(Visited(atoms, n, leading).text, Span(atoms, n, leading), leading);
    hide Span, Visited;
  }

  // ---- In general the surroundings are not contiguous ----

  /** A tokenizer for which only the full stop costs anything. */
  function CountStops(s: string): nat {
    if '.' in s then 2 else 0
  }

  const SAMPLE := [Atom(Drawing, "<drawing/>"), Atom(Plain, "a.b")]

  lemma SplitAtStop()
    ensures FirstSplit("a.b", ["."]) == ["a.", "b"]
  {
    var text := "a.b";
    assert At(text, ".", 1);
    assert text[0..1] == "a" && !At(text, ".", 0);
    assert text[2..] == "b" && text[..2] == "a.";
    assert "b"[0..1] == "b" && !At("b", ".", 0);
    assert Pieces("b", ".") == ["b"];
    assert Pieces(text, ".") == ["a."] + ["b"];
  }

  lemma FirstPieceIsB(piece: string)
    requires CountStops(piece) <= 1 && Greedy(FirstSplit("a.b", ["."]), "", piece, 1, true, CountStops)
    ensures piece == "b"
  {
    hide FirstSplit, Pieces;
    SplitAtStop();
    var segments := ["a.", "b"];
    ClosestSegment(segments, true);
    assert segments[1..] == ["b"] && ["b"][1..] == [];
    assert Concat(["b"]) == "b" && Concat(segments) == "a." + "b";
    hide Concat, Taken;
    assert Joint("b", "", true) == "b" && ("a." + "b")[1] == '.';
    assert Greedy(segments, "", piece, 1, true, CountStops);
    var k :| TakesUpTo(segments, "", piece, 1, true, CountStops, k);
  }

  lemma AssembleOneOrTwo(near: string, far: string)
    ensures Assemble([near], true) == near
    ensures Assemble([near, far], true) == far + near
  {
    assert [near][..0] == [] && near + "" == near;
    assert Assemble([near], true) == near;
    assert [near, far][..1] == [near];
  }

  /** The walk over the sample takes "b" from the text. */
  lemma SampleStarts(pieces: seq<string>, env: Env)
    requires env.count == CountStops && Walked(SAMPLE, pieces, 1, ["."], true, env)
    requires Ended(SAMPLE, pieces, 1, ["."], true, env)
    ensures pieces != [] && pieces[0] == "b"
  {
    hide Greedy, FirstSplit;
    assert Visited(SAMPLE, 0, true) == SAMPLE[1];
    assert "a.b"[2..] == "b" && SuffixMonotone(CountStops, "a.b");
    assert pieces != [];
    assert ContributesAt(SAMPLE, pieces, 0, 1, ["."], true, env) && pieces[..0] == [];
    assert pieces == [pieces[0]] || pieces == [pieces[0], pieces[1]];
    assert CountStops(pieces[0]) <= 1 by {
      hide Walked, Ended;
      AssembleOneOrTwo(pieces[0], if |pieces| == 2 then pieces[1] else "");
    }
    FirstPieceIsB(pieces[0]);
  }

  /** And then visits the drawing, which costs nothing. */
  lemma SampleWalk(pieces: seq<string>, env: Env)
    requires env.count == CountStops && Walked(SAMPLE, pieces, 1, ["."], true, env)
    requires Ended(SAMPLE, pieces, 1, ["."], true, env)
    ensures pieces == ["b", "<drawing/>"]
  {
    hide Greedy, FirstSplit, IsTrimmed;
    SampleStarts(pieces, env);
    assert Visited(SAMPLE, 1, true) == SAMPLE[0];
    AssembleOneOrTwo("b", "");
    assert Joint("<drawing/>", "b", true) == "<drawing/>b";
    assert |pieces| == 1 ==> pieces == ["b"];
    assert |pieces| == 2;
    assert ContributesAt(SAMPLE, pieces, 1, 1, ["."], true, env);
  }

  lemma StopsAreTokens()
    ensures IsTokenizer(CountStops)
  {
  }

  /** Of "a.b" only "b" fits, and yet the walk goes on: the drawing before it is put next to "b". */
  lemma PartialTextIsSkipped(r: string, env: Env)
    requires env.count == CountStops && Builds(SAMPLE, r, 1, ["."], true, env)
    ensures IsTokenizer(CountStops) && r == "<drawing/>b" && !IsSuffix(r, "<drawing/>a.b")
  {
    hide ContributesAt, IsWhole, Ended, Assemble, IsTokenizer, CountStops, IsSuffix;
    var pieces :| Walked(SAMPLE, pieces, 1, ["."], true, env) && Ended(SAMPLE, pieces, 1, ["."], true, env)
      && r == Assemble(pieces, true);
    SampleWalk(pieces, env);
    StopsAreTokens();
    AssembleOneOrTwo("b", "<drawing/>");
    assert "<drawing/>" + "b" == "<drawing/>b";
    TextIsMissing();
  }

  lemma TextIsMissing()
    ensures !IsSuffix("<drawing/>b", "<drawing/>a.b")
  {
    assert "<drawing/>a.b"[2..][0] == 'r';
  }
}
