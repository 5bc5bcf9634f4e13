/** Strings: substring search and concatenation. */
module Text {
  import opened Options

  predicate At(s: string, pat: string, i: nat) {
    i + |pat| <= |s| && s[i..i + |pat|] == pat
  }

  lemma AtTail(s: string, pat: string, j: nat)
    requires s != []
    ensures At(s[1..], pat, j) <==> At(s, pat, j + 1)
  {
    if j + 1 + |pat| <= |s| { assert s[1..][j..j + |pat|] == s[j + 1..j + 1 + |pat|]; }
  }

  lemma AtPrefix(s: string, t: string, pat: string, j: nat)
    requires j + |pat| <= |s|
    ensures At(s, pat, j) <==> At(s + t, pat, j)
  {
    assert (s + t)[j..j + |pat|] == s[j..j + |pat|];
  }

  /** The first occurrence of pat. */
  function Find(s: string, pat: string): (r: Option<nat>)
    ensures r.None? ==> forall j: nat :: !At(s, pat, j)
    ensures r.Some? ==> At(s, pat, r.value) && forall j: nat :: j < r.value ==> !At(s, pat, j)
  {
    if |pat| > |s| then None
    else if s[..|pat|] == pat then
      assert At(s, pat, 0);
      Some(0)
    else
      var rest := Find(s[1..], pat);
      assert forall j: nat {:trigger At(s, pat, j)} :: At(s, pat, j) ==> j > 0 && At(s[1..], pat, j - 1) by {
        forall j: nat | At(s, pat, j) ensures j > 0 && At(s[1..], pat, j - 1) { if j > 0 { AtTail(s, pat, j - 1); } }
      }
      if rest.Some? then (AtTail(s, pat, rest.value); Some(rest.value + 1)) else None
  }

  /** What is found in a prefix is found at the same place in the whole string, and the other way round if the
      occurrence ends within the prefix. */
  lemma FindInPrefix(s: string, t: string, pat: string)
    requires Find(s, pat).Some? || (Find(s + t, pat).Some? && Find(s + t, pat).value + |pat| <= |s|)
    ensures Find(s, pat) == Find(s + t, pat)
  {
    hide Find, At;
    var i := if Find(s, pat).Some? then Find(s, pat).value else Find(s + t, pat).value;
    if At(s, pat, i) { AtFits(s, pat, i); }
    AtPrefix(s, t, pat, i);
    assert At(s, pat, i) && At(s + t, pat, i);
    forall j: nat | j < i ensures At(s, pat, j) <==> At(s + t, pat, j) { AtPrefix(s, t, pat, j); }
  }

  lemma AtFits(s: string, pat: string, i: nat)
    requires At(s, pat, i)
    ensures i + |pat| <= |s|
  {
  }

  /** The first occurrence of pat at or after `from` is at i. */
  ghost predicate FirstFrom(s: string, pat: string, from: nat, i: nat) {
    from <= i && At(s, pat, i) && forall j: nat :: from <= j < i ==> !At(s, pat, j)
  }

  lemma AtFrom(s: string, pat: string, from: nat, j: nat)
    requires from <= |s|
    ensures At(s[from..], pat, j) <==> At(s, pat, from + j)
  {
    if from + j + |pat| <= |s| { assert s[from..][j..j + |pat|] == s[from + j..from + j + |pat|]; }
  }

  lemma FindIsFirst(s: string, pat: string, from: nat)
    requires from <= |s|
    ensures Find(s[from..], pat).Some? ==> FirstFrom(s, pat, from, from + Find(s[from..], pat).value)
    ensures forall i: nat :: FirstFrom(s, pat, from, i) ==> Find(s[from..], pat) == Some(i - from)
  {
    hide Find, At;
    forall j: nat ensures At(s[from..], pat, j) <==> At(s, pat, from + j) { AtFrom(s, pat, from, j); }
    forall i: nat | FirstFrom(s, pat, from, i) ensures Find(s[from..], pat) == Some(i - from) {
      assert At(s[from..], pat, i - from);
    }
    if Find(s[from..], pat).Some? {
      var at := from + Find(s[from..], pat).value;
      forall j: nat | from <= j < at ensures !At(s, pat, j) { assert !At(s[from..], pat, j - from); }
    }
  }

  function Concat(parts: seq<string>): string {
    if parts == [] then "" else parts[0] + Concat(parts[1..])
  }

  lemma ConcatOne(part: string)
    ensures Concat([part]) == part
  {
    assert [part][1..] == [] && part + "" == part;
  }

  lemma {:induction false} ConcatAppend(a: seq<string>, b: seq<string>)
    ensures Concat(a + b) == Concat(a) + Concat(b)
  {
    if a == [] {
      assert a + b == b;
    } else {
      ConcatAppend(a[1..], b);
      assert (a + b)[1..] == a[1..] + b && (a + b)[0] == a[0];
      assert Concat(a) == a[0] + Concat(a[1..]) && Concat(a + b) == a[0] + Concat(a[1..] + b);
      hide Concat;
      Associative(a[0], Concat(a[1..]), Concat(b));
    }
  }

  lemma Associative(a: string, b: string, c: string)
    ensures a + (b + c) == a + b + c
  {
  }

  /** str.join. */
  function Join(parts: seq<string>, sep: string): string {
    if |parts| <= 1 then Concat(parts) else parts[0] + sep + Join(parts[1..], sep)
  }

  /** One part stands by itself, and between two lists of parts stands one separator. */
  lemma {:induction false} JoinParts(a: seq<string>, b: seq<string>, sep: string)
    requires a != [] && b != []
    ensures Join(a + b, sep) == Join(a, sep) + sep + Join(b, sep)
    ensures |a| == 1 ==> Join(a, sep) == a[0]
  {
    assert (a + b)[1..] == a[1..] + b && (a + b)[0] == a[0];
    if |a| == 1 {
      assert a == [a[0]] && [] + b == b;
      ConcatOne(a[0]);
    } else {
      JoinParts(a[1..], b, sep);
      Reassociate(a[0], sep, Join(a[1..], sep), Join(b, sep));
    }
  }

  lemma Reassociate(first: string, sep: string, a: string, b: string)
    ensures first + sep + (a + sep + b) == first + sep + a + sep + b
  {
  }

  predicate IsPrefix(p: string, s: string) {
    |p| <= |s| && p == s[..|p|]
  }

  predicate IsSuffix(p: string, s: string) {
    |p| <= |s| && p == s[|s| - |p|..]
  }

  // ---- Letters, as the case-insensitive patterns see them ----

  function LowerChar(c: char): char {
    if 'A' <= c <= 'Z' then c - 'A' + 'a' else c
  }

  function Lower(s: string): (r: string)
    ensures |r| == |s| && forall i :: 0 <= i < |s| ==> r[i] == LowerChar(s[i])
  {
    seq(|s|, i requires 0 <= i < |s| => LowerChar(s[i]))
  }

  predicate IsWordChar(c: char) {
    'a' <= c <= 'z' || 'A' <= c <= 'Z' || '0' <= c <= '9' || c == '_'
  }

  // ---- Tags ----

  /** s begins with this opening tag: its name, a word boundary, and at g the first `>` after it. */
  ghost predicate Opens(s: string, name: string, g: nat) {
    At(s, name, 0) && FirstFrom(s, ">", |name|, g) && !IsWordChar(s[|name|])
  }

  /** s begins with an element, which goes up to the first closing tag behind its opening tag. */
  ghost predicate Element(s: string, name: string, close: string, end: nat) {
    |close| <= end && exists g: nat :: Opens(s, name, g) && FirstFrom(s, close, g + 1, end - |close|)
  }
}
