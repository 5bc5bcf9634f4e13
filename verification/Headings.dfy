/** The heading breadcrumb of a chunk: cleaning, capping, joining, and splitting it back into levels. */
module Headings {
  import opened Options
  import opened Places
  import opened Text

  const ARROW := '\U{2192}'
  const ELLIPSIS := '\U{2026}'
  const SEPARATOR := [' ', ARROW, ' ']

  /** What the cleaning asks of Unicode: which characters are control or format codes, and which are whitespace. */
  datatype Unicode = Unicode(code: char -> bool, space: char -> bool)

  /** Whitespace control characters, which are kept until whitespace is collapsed. */
  predicate IsKept(c: char) {
    c == '\t' || c == '\n' || c == '\r' || c == '\U{000C}' || c == '\U{000B}'
  }

  /** The facts relied on. */
  ghost predicate Sensible(u: Unicode) {
    && u.space(' ') && !u.code(' ') && (forall c :: IsKept(c) ==> u.space(c))
    && !u.space(ARROW) && !u.space(ELLIPSIS)
  }

  // ---- _clean_heading_text ----

  function NoArrows(s: string): string {
    if s == "" then "" else [if s[0] == ARROW then ' ' else s[0]] + NoArrows(s[1..])
  }

  function DropCodes(s: string, u: Unicode): string {
    if s == "" then "" else (if IsKept(s[0]) || !u.code(s[0]) then [s[0]] else []) + DropCodes(s[1..], u)
  }

  function TrimStart(s: string, u: Unicode): (r: string)
    ensures |r| <= |s| && (r != "" ==> !u.space(r[0]))
  {
    if s != "" && u.space(s[0]) then TrimStart(s[1..], u) else s
  }

  function TrimEnd(s: string, u: Unicode): (r: string)
    ensures IsPrefix(r, s) && (r != "" ==> !u.space(r[|r| - 1]))
    ensures forall i :: |r| <= i < |s| ==> u.space(s[i])
  {
    if s != "" && u.space(s[|s| - 1]) then TrimEnd(s[..|s| - 1], u) else s
  }

  /** Every run of whitespace becomes one space. */
  function Collapse(s: string, u: Unicode): string
    decreases |s|
  {
    if s == "" then ""
    else if u.space(s[0]) then " " + Collapse(TrimStart(s[1..], u), u)
    else [s[0]] + Collapse(s[1..], u)
  }

  function Clean(s: string, u: Unicode): string {
    TrimEnd(TrimStart(Collapse(DropCodes(NoArrows(s), u), u), u), u)
  }

  // ---- What a cleaned heading is ----

  /** No arrow, no codes, no whitespace but spaces. */
  predicate IsPlain(c: char, u: Unicode) {
    c != ARROW && !u.code(c) && (u.space(c) ==> c == ' ')
  }

  predicate NoDoubleSpace(s: string) {
    forall i :: 0 <= i < |s| - 1 ==> !(s[i] == ' ' && s[i + 1] == ' ')
  }

  ghost predicate IsTidy(s: string, u: Unicode) {
    && (forall c :: c in s ==> IsPlain(c, u)) && NoDoubleSpace(s)
    && (s != "" ==> !u.space(s[0]) && !u.space(s[|s| - 1]))
  }

  lemma {:induction false} NoArrowsLeft(s: string)
    ensures ARROW !in NoArrows(s) && (ARROW !in s ==> NoArrows(s) == s)
  {
    if s != "" {
      NoArrowsLeft(s[1..]);
      assert s == [s[0]] + s[1..];
    }
  }

  lemma {:induction false} NoCodesLeft(s: string, u: Unicode)
    ensures forall c :: c in DropCodes(s, u) ==> c in s && (IsKept(c) || !u.code(c))
    ensures (forall c :: c in s ==> IsKept(c) || !u.code(c)) ==> DropCodes(s, u) == s
  {
    if s != "" {
      NoCodesLeft(s[1..], u);
      assert s == [s[0]] + s[1..];
    }
  }

  lemma {:induction false} TrimStartKeeps(s: string, u: Unicode)
    ensures IsSuffix(TrimStart(s, u), s)
  {
    if s != "" && u.space(s[0]) { TrimStartKeeps(s[1..], u); }
  }

  lemma {:induction false} CollapsedFacts(s: string, u: Unicode)
    requires Sensible(u)
    ensures
      var r := Collapse(s, u);
      && NoDoubleSpace(r) && (forall c :: c in r ==> c == ' ' || (c in s && !u.space(c)))
      && (s != "" && !u.space(s[0]) ==> r != "" && r[0] == s[0])
    decreases |s|
  {
    if s != "" {
      if u.space(s[0]) {
        var rest := TrimStart(s[1..], u);
        TrimStartKeeps(s[1..], u);
        CollapsedFacts(rest, u);
        assert rest != "" ==> Collapse(rest, u)[0] != ' ';
        assert rest == "" ==> Collapse(rest, u) == "";
        assert forall c :: c in rest ==> c in s;
      } else {
        CollapsedFacts(s[1..], u);
        assert s[0] != ' ';
      }
    }
  }

  lemma {:induction false} CollapseFixes(s: string, u: Unicode)
    requires Sensible(u) && NoDoubleSpace(s) && forall c :: c in s ==> IsPlain(c, u)
    ensures Collapse(s, u) == s
    decreases |s|
  {
    if s != "" {
      SliceKeepsNoDouble(s, 1, |s|);
      assert s[1..|s|] == s[1..];
      assert s[1..] != "" ==> s[1..][0] == s[1] && s[1] in s;
      if u.space(s[0]) {
        assert s[0] in s && TrimStart(s[1..], u) == s[1..];
      }
      CollapseFixes(s[1..], u);
      assert s == [s[0]] + s[1..];
    }
  }

  lemma SliceKeepsNoDouble(s: string, from: nat, to: nat)
    requires from <= to <= |s| && NoDoubleSpace(s)
    ensures NoDoubleSpace(s[from..to])
  {
    var r := s[from..to];
    forall i | 0 <= i < |r| - 1 ensures !(r[i] == ' ' && r[i + 1] == ' ') {
      assert r[i] == s[from + i] && r[i + 1] == s[from + i + 1];
    }
  }

  lemma TrimIsSlice(s: string, u: Unicode) returns (from: nat, to: nat)
    ensures from <= to <= |s| && TrimEnd(TrimStart(s, u), u) == s[from..to]
  {
    TrimStartKeeps(s, u);
    var t := TrimStart(s, u);
    from := |s| - |t|;
    to := from + |TrimEnd(t, u)|;
  }

  lemma CleanIsTidy(s: string, u: Unicode)
    requires Sensible(u)
    ensures IsTidy(Clean(s, u), u)
  {
    var dropped := DropCodes(NoArrows(s), u);
    var collapsed := Collapse(dropped, u);
    NoArrowsLeft(s);
    NoCodesLeft(NoArrows(s), u);
    CollapsedFacts(dropped, u);
    assert forall c :: c in collapsed ==> IsPlain(c, u);
    hide NoArrows, DropCodes, Collapse;
    var from, to := TrimIsSlice(collapsed, u);
    SliceKeepsNoDouble(collapsed, from, to);
    var r, started := collapsed[from..to], TrimStart(collapsed, u);
    assert r != "" ==> r[0] == started[0];
  }

  lemma TidyIsClean(s: string, u: Unicode)
    requires Sensible(u) && IsTidy(s, u)
    ensures Clean(s, u) == s
  {
    NoArrowsLeft(s);
    NoCodesLeft(s, u);
    CollapseFixes(s, u);
  }

  /** Cleaning twice is cleaning once; the cleaned headings are exactly the tidy ones. */
  lemma CleanIsIdempotent(s: string, u: Unicode)
    requires Sensible(u)
    ensures Clean(Clean(s, u), u) == Clean(s, u)
    ensures Clean(s, u) == s <==> IsTidy(s, u)
  {
    CleanIsTidy(s, u);
    TidyIsClean(Clean(s, u), u);
    if IsTidy(s, u) { TidyIsClean(s, u); }
  }

  // ---- What cleaning keeps ----

  /** The words of a heading: what arrows and whitespace separate, without its codes. `word` is the beginning of the
      first of them. */
  function Words(s: string, word: string, u: Unicode): seq<string> {
    var done := if word == "" then [] else [word];
    if s == "" then done
    else if s[0] == ARROW || (u.space(s[0]) && (IsKept(s[0]) || !u.code(s[0]))) then done + Words(s[1..], "", u)
    else Words(s[1..], if u.code(s[0]) then word else word + [s[0]], u)
  }

  lemma {:induction false} WordsSurvive(s: string, word: string, u: Unicode)
    requires Sensible(u)
    ensures Words(DropCodes(NoArrows(s), u), word, u) == Words(s, word, u)
  {
    if s != "" {
      var c, rest := if s[0] == ARROW then ' ' else s[0], NoArrows(s[1..]);
      assert NoArrows(s) == [c] + rest && ([c] + rest)[1..] == rest;
      var dropped := DropCodes(rest, u);
      if IsKept(c) || !u.code(c) {
        assert DropCodes(NoArrows(s), u) == [c] + dropped && ([c] + dropped)[1..] == dropped;
      } else {
        assert DropCodes(NoArrows(s), u) == [] + dropped && [] + dropped == dropped;
      }
      WordsSurvive(s[1..], "", u);
      WordsSurvive(s[1..], word, u);
      WordsSurvive(s[1..], word + [s[0]], u);
    }
  }

  /** What comes before the cleaning of whitespace. */
  ghost predicate IsStripped(s: string, u: Unicode) {
    forall c :: c in s ==> c != ARROW && (IsKept(c) || !u.code(c))
  }

  lemma TrimEndIs(s: string, r: string, u: Unicode)
    requires IsPrefix(r, s) && r != "" && !u.space(r[|r| - 1]) && forall i :: |r| <= i < |s| ==> u.space(s[i])
    ensures TrimEnd(s, u) == r
  {
    var t := TrimEnd(s, u);
    assert r[|r| - 1] == s[|r| - 1] && (t != "" ==> t[|t| - 1] == s[|t| - 1]);
    hide TrimEnd;
    assert |t| == |r|;
  }

  lemma TrimEndOfTail(a: string, b: string, u: Unicode)
    requires b != "" && !u.space(b[0])
    ensures TrimEnd(a + b, u) == a + TrimEnd(b, u) && TrimEnd(b, u) != ""
  {
    var t := TrimEnd(b, u);
    hide TrimEnd;
    assert (a + b)[..|a| + |t|] == a + t;
    TrimEndIs(a + b, a + t, u);
  }

  lemma {:induction false} LeadingSpaceIsNoWord(s: string, u: Unicode)
    requires Sensible(u) && IsStripped(s, u)
    ensures Words(TrimStart(s, u), "", u) == Words(s, "", u) && IsStripped(TrimStart(s, u), u)
  {
    if s != "" && u.space(s[0]) {
      assert s[0] in s;
      LeadingSpaceIsNoWord(s[1..], u);
      assert [] + Words(s[1..], "", u) == Words(s[1..], "", u);
    }
  }

  lemma {:induction false} SomeWord(s: string, word: string, u: Unicode)
    requires word != ""
    ensures Words(s, word, u) != []
  {
    if s != "" {
      SomeWord(s[1..], word, u);
      SomeWord(s[1..], word + [s[0]], u);
    }
  }

  /** Collapsed whitespace stands between words, once they have begun. */
  lemma {:induction false} CollapseSpaces(s: string, word: string, u: Unicode)
    requires Sensible(u) && IsStripped(s, u) && word != "" && forall c :: c in word ==> !u.space(c)
    ensures TrimEnd(word + Collapse(s, u), u) == Join(Words(s, word, u), " ")
    decreases |s|, 1
  {
    hide TrimEnd;
    if s == "" {
      assert word + "" == word;
      LastWord(word, "", u);
    } else {
      assert s[0] in s && forall c :: c in s[1..] ==> c in s;
      if u.space(s[0]) {
        CollapseAtSpace(s, word, u);
      } else {
        CollapseSpaces(s[1..], word + [s[0]], u);
        assert word + ([s[0]] + Collapse(s[1..], u)) == word + [s[0]] + Collapse(s[1..], u);
      }
    }
  }

  lemma LastWord(word: string, gap: string, u: Unicode)
    requires word != "" && (forall c :: c in word ==> !u.space(c)) && forall c :: c in gap ==> u.space(c)
    ensures TrimEnd(word + gap, u) == word && Join([word], " ") == word
  {
    assert word[|word| - 1] in word && (word + gap)[..|word|] == word;
    TrimEndIs(word + gap, word, u);
    ConcatOne(word);
  }

  lemma AtSpace(s: string, word: string, u: Unicode)
    requires Sensible(u) && IsStripped(s, u) && word != "" && s != "" && u.space(s[0])
    ensures
      var rest := TrimStart(s[1..], u);
      && |rest| < |s| && IsStripped(rest, u) && (rest != "" ==> !u.space(rest[0]))
      && (if rest == "" then Words(s, word, u) == [word] && Collapse(s, u) == " "
          else Words(s, word, u) == [word] + Words(rest, "", u) && Collapse(s, u) == " " + Collapse(rest, u))
  {
    assert s[0] in s && forall c :: c in s[1..] ==> c in s;
    var rest := TrimStart(s[1..], u);
    LeadingSpaceIsNoWord(s[1..], u);
    assert Words(s, word, u) == [word] + Words(rest, "", u);
    assert rest == "" ==> [word] + [] == [word] && Words(rest, "", u) == [];
  }

  lemma CollapseAtSpace(s: string, word: string, u: Unicode)
    requires Sensible(u) && IsStripped(s, u) && word != "" && forall c :: c in word ==> !u.space(c)
    requires s != "" && u.space(s[0])
    ensures TrimEnd(word + Collapse(s, u), u) == Join(Words(s, word, u), " ")
    decreases |s|, 0
  {
    hide Words, Collapse, TrimEnd, TrimStart, Join, IsStripped;
    AtSpace(s, word, u);
    var rest := TrimStart(s[1..], u);
    if rest == "" {
      LastWord(word, " ", u);
    } else {
      NextWord(rest, word, u);
      Associative(word, " ", Collapse(rest, u));
    }
  }

  lemma NextWord(s: string, word: string, u: Unicode)
    requires Sensible(u) && IsStripped(s, u) && s != "" && !u.space(s[0])
    ensures TrimEnd(word + " " + Collapse(s, u), u) == word + " " + Join(Words(s, "", u), " ")
    ensures Join([word] + Words(s, "", u), " ") == word + " " + Join(Words(s, "", u), " ")
    decreases |s|, 0
  {
    var c, rest := s[0], s[1..];
    assert c in s && forall d :: d in rest ==> d in s;
    CollapseSpaces(rest, [c], u);
    assert "" + [c] == [c] && Words(s, "", u) == Words(rest, [c], u);
    TrimEndOfTail(word + " ", Collapse(s, u), u);
    SomeWord(rest, [c], u);
    assert ([word] + Words(s, "", u))[1..] == Words(s, "", u);
  }

  /** A cleaned heading is its words with one space between them. */
  lemma CleanIsWords(s: string, u: Unicode)
    requires Sensible(u)
    ensures Clean(s, u) == Join(Words(s, "", u), " ")
  {
    var x := DropCodes(NoArrows(s), u);
    WordsSurvive(s, "", u);
    NoArrowsLeft(s);
    NoCodesLeft(NoArrows(s), u);
    assert IsStripped(x, u);
    var y := TrimStart(x, u);
    LeadingSpaceIsNoWord(x, u);
    CollapseTrims(x, u);
    if y != "" {
      assert y[0] in y && "" + [y[0]] == [y[0]];
      CollapseSpaces(y[1..], [y[0]], u);
    }
  }

  /** The whitespace control characters separate words, whether or not they count as codes. */
  lemma ControlsSeparate(c: char, u: Unicode)
    requires Sensible(u) && c in ['\t', '\n', '\r', '\U{000C}', '\U{000B}']
    requires !u.space('a') && !u.code('a') && !u.space('b') && !u.code('b')
    ensures Clean(['a', c, 'b'], u) == "a b"
  {
    var s := ['a', c, 'b'];
    CleanIsWords(s, u);
    assert s[1..] == [c, 'b'] && s[1..][1..] == "b" && "b"[1..] == "";
    assert Words("", "b", u) == ["b"];
    assert "" + ['b'] == "b" && Words("b", "", u) == ["b"];
    assert Words([c, 'b'], "a", u) == ["a"] + ["b"];
    assert "" + ['a'] == "a" && Words(s, "", u) == ["a", "b"];
    assert ["a", "b"][1..] == ["b"];
    ConcatOne("b");
  }

  /** Trimming after collapsing is collapsing after trimming. */
  lemma CollapseTrims(s: string, u: Unicode)
    requires Sensible(u)
    ensures TrimStart(Collapse(s, u), u) == Collapse(TrimStart(s, u), u)
  {
    if s != "" && u.space(s[0]) {
      var rest := TrimStart(s[1..], u);
      assert (" " + Collapse(rest, u))[1..] == Collapse(rest, u);
    }
  }

  // ---- _truncate_heading_level, _clean_and_cap_headings ----

  function Truncate(text: string, max: int, u: Unicode): (r: string)
    ensures max > 0 ==> |r| <= max
    ensures |text| <= max || max <= 0 <==> r == text
    ensures 0 < max < |text| ==>
      r != "" &&
      var kept := r[..|r| - 1];
      && r[|r| - 1] == ELLIPSIS && IsPrefix(kept, text) && (kept != "" ==> !u.space(kept[|kept| - 1]))
      && forall i :: |kept| <= i < max - 1 ==> u.space(text[i])
  {
    if max <= 0 || |text| <= max then text else TrimEnd(text[..max - 1], u) + [ELLIPSIS]
  }

  function Levels(headings: seq<string>, max: int, u: Unicode): seq<string> {
    if headings == [] then []
    else
      var cleaned := Clean(headings[|headings| - 1], u);
      Levels(headings[..|headings| - 1], max, u) + if cleaned == "" then [] else [Truncate(cleaned, max, u)]
  }

  function HasWords(headings: seq<string>, u: Unicode): nat -> bool {
    (n: nat) => n < |headings| && Clean(headings[n], u) != ""
  }

  /** The levels are the headings that have any words, in order, each cleaned and capped. */
  lemma {:induction false} LevelsInOrder(headings: seq<string>, max: int, u: Unicode) returns (at: seq<nat>)
    ensures Chooses(at, |headings|, HasWords(headings, u)) && |at| == |Levels(headings, max, u)|
    ensures forall i :: 0 <= i < |at| ==>
      at[i] < |headings| && Levels(headings, max, u)[i] == Truncate(Clean(headings[at[i]], u), max, u)
  {
    hide Chooses, Clean, Truncate;
    if headings == [] {
      at := [];
      NoPlace(HasWords(headings, u));
    } else {
      var last, init := |headings| - 1, headings[..|headings| - 1];
      at := LevelsInOrder(init, max, u);
      assert forall i :: 0 <= i < last ==> init[i] == headings[i];
      NextPlace(at, last, HasWords(init, u), HasWords(headings, u));
      if Clean(headings[last], u) != "" { at := at + [last]; }
    }
  }

  /** format_heading_context: the parents' headings, then the chunk's own if it has one. */
  method FormatHeadingContext(parents: seq<string>, heading: string, max: int, u: Unicode) returns (breadcrumb: string)
    ensures breadcrumb == Join(Levels(if heading == "" then parents else parents + [heading], max, u), SEPARATOR)
  {
    hide Clean, Truncate;
    var chain := parents;
    if heading != "" { chain := chain + [heading]; }
    var levels: seq<string> := [];
    for i := 0 to |chain|
      invariant levels == Levels(chain[..i], max, u)
    {
      assert chain[..i + 1][..i] == chain[..i];
      var cleaned := Clean(chain[i], u);
      if cleaned != "" { levels := levels + [Truncate(cleaned, max, u)]; }
    }
    assert chain[..|chain|] == chain;
    return Join(levels, SEPARATOR);
  }

  /** str.split on a separator. */
  function SplitBy(text: string, sep: string): seq<string>
    requires sep != ""
    decreases |text|
  {
    var at := Find(text, sep);
    if at.None? then [text] else [text[..at.value]] + SplitBy(text[at.value + |sep|..], sep)
  }

  lemma SeparatorHasArrow(text: string, j: nat)
    ensures At(text, SEPARATOR, j) ==> j + 1 < |text| && text[j + 1] == ARROW
  {
    if j + 3 <= |text| { assert text[j..j + 3][1] == text[j + 1]; }
  }

  lemma FirstSeparator(level: string, rest: string)
    requires ARROW !in level
    ensures Find(level + SEPARATOR + rest, SEPARATOR) == Some(|level|)
    ensures Find(level, SEPARATOR).None?
  {
    var text := level + SEPARATOR + rest;
    assert text[|level|..|level| + 3] == SEPARATOR;
    assert At(text, SEPARATOR, |level|);
    assert text[|level|] == ' ' && forall i :: 0 <= i < |level| ==> text[i] == level[i];
    forall j: nat
      ensures At(text, SEPARATOR, j) ==> j + 1 < |text| && text[j + 1] == ARROW
    {
      SeparatorHasArrow(text, j);
    }
    forall j: nat
      ensures At(level, SEPARATOR, j) ==> j + 1 < |level| && level[j + 1] == ARROW
    {
      SeparatorHasArrow(level, j);
    }
    assert forall i :: 0 <= i <= |level| ==> text[i] != ARROW;
    hide Find;
  }

  lemma SplitFirst(level: string, rest: string)
    requires ARROW !in level
    ensures SplitBy(level + SEPARATOR + rest, SEPARATOR) == [level] + SplitBy(rest, SEPARATOR)
    ensures SplitBy(level, SEPARATOR) == [level]
  {
    hide Find;
    FirstSeparator(level, rest);
    var text := level + SEPARATOR + rest;
    assert text[..|level|] == level && text[|level| + 3..] == rest;
  }

  lemma {:induction false} SplitJoin(levels: seq<string>)
    requires levels != [] && forall l :: l in levels ==> ARROW !in l
    ensures SplitBy(Join(levels, SEPARATOR), SEPARATOR) == levels
  {
    hide SplitBy;
    assert levels[0] in levels;
    assert levels == [levels[0]] + levels[1..];
    if |levels| == 1 {
      ConcatOne(levels[0]);
      SplitFirst(levels[0], "");
    } else {
      SplitJoin(levels[1..]);
      SplitFirst(levels[0], Join(levels[1..], SEPARATOR));
    }
  }

  lemma {:induction false} LevelsAreCapped(headings: seq<string>, max: int, u: Unicode)
    requires Sensible(u)
    ensures forall l :: l in Levels(headings, max, u) ==> l != "" && ARROW !in l && (max > 0 ==> |l| <= max)
  {
    hide Clean, Truncate, IsTidy;
    if headings != [] {
      var last := headings[|headings| - 1];
      LevelsAreCapped(headings[..|headings| - 1], max, u);
      CleanIsTidy(last, u);
      if Clean(last, u) != "" { LevelIsCapped(Clean(last, u), max, u); }
    }
  }

  lemma LevelIsCapped(cleaned: string, max: int, u: Unicode)
    requires IsTidy(cleaned, u) && cleaned != ""
    ensures
      var level := Truncate(cleaned, max, u);
      level != "" && ARROW !in level && (max > 0 ==> |level| <= max)
  {
    var level := Truncate(cleaned, max, u);
    assert forall c :: c in cleaned ==> IsPlain(c, u);
    hide Truncate, TrimEnd, NoDoubleSpace;
    if 0 < max < |cleaned| {
      var kept := level[..|level| - 1];
      assert level == kept + [ELLIPSIS];
      forall i | 0 <= i < |kept| ensures kept[i] in cleaned { assert kept[i] == cleaned[i]; }
    }
  }

  /** Splitting the breadcrumb gives back exactly its levels: cleaned, never empty, each within the cap. */
  lemma BreadcrumbRoundTrip(headings: seq<string>, max: int, u: Unicode)
    requires Sensible(u)
    ensures
      var levels := Levels(headings, max, u);
      && (levels != [] ==> SplitBy(Join(levels, SEPARATOR), SEPARATOR) == levels)
      && (forall l :: l in levels ==> l != "" && ARROW !in l && (max > 0 ==> |l| <= max))
      && (Join(levels, SEPARATOR) == "" <==> levels == [])
  {
    var levels := Levels(headings, max, u);
    LevelsAreCapped(headings, max, u);
    if levels != [] {
      SplitJoin(levels);
      assert levels[0] in levels;
    }
  }
}
