/** Reranking long documents: windows of tokens, scores per window, scores per document. */
module Rerank {
  import opened Options
  import opened Places

  // ---- chunk_documents_for_rerank ----

  /** The overlap actually used; one that leaves no room to advance gives way to an advance by half a window, rounded
      up. */
  function Clamped(max: nat, overlap: int): (o: int)
    requires max >= 1
    ensures o < max && (overlap >= 0 ==> o >= 0) && (overlap < max ==> o == overlap)
    ensures overlap >= max ==> max <= 2 * (max - o) <= max + 1
  {
    if overlap >= max then max / 2 else overlap
  }

  function WindowsFrom<T>(tokens: seq<T>, start: nat, max: nat, overlap: int): seq<seq<T>>
    requires max >= 1 && overlap < max
    decreases |tokens| - start
  {
    if start >= |tokens| then []
    else
      var end := if start + max < |tokens| then start + max else |tokens|;
      [tokens[start..end]] + if end >= |tokens| then [] else WindowsFrom(tokens, end - overlap, max, overlap)
  }

  /** The windows of one document. */
  function Windows<T>(tokens: seq<T>, max: nat, overlap: int): seq<seq<T>>
    requires max >= 1 && overlap < max
  {
    if |tokens| <= max then [tokens] else WindowsFrom(tokens, 0, max, overlap)
  }

  function AllWindows<T>(docs: seq<seq<T>>, max: nat, overlap: int): seq<seq<T>>
    requires max >= 1 && overlap < max
  {
    if docs == [] then [] else AllWindows(docs[..|docs| - 1], max, overlap) + Windows(docs[|docs| - 1], max, overlap)
  }

  /** Each window's document. */
  function AllIndices<T>(docs: seq<seq<T>>, max: nat, overlap: int): (r: seq<nat>)
    requires max >= 1 && overlap < max
    ensures |r| == |AllWindows(docs, max, overlap)|
  {
    if docs == [] then []
    else
      AllIndices(docs[..|docs| - 1], max, overlap) + Repeat(|docs| - 1, |Windows(docs[|docs| - 1], max, overlap)|)
  }

  function Repeat(d: nat, n: nat): (r: seq<nat>)
    ensures |r| == n && forall i :: 0 <= i < n ==> r[i] == d
  {
    if n == 0 then [] else [d] + Repeat(d, n - 1)
  }

  method SplitTokens<T>(tokens: seq<T>, max: nat, overlap: int) returns (windows: seq<seq<T>>)
    requires max >= 1 && overlap < max
    ensures windows == Windows(tokens, max, overlap)
  {
    if |tokens| <= max { return [tokens]; }
    hide WindowsFrom;
    windows := [];
    var start := 0;
    Whole(WindowsFrom(tokens, start, max, overlap));
    while start < |tokens|
      invariant start >= 0
      invariant windows + WindowsFrom(tokens, start, max, overlap) == Windows(tokens, max, overlap)
      decreases |tokens| - start
    {
      var end := if start + max < |tokens| then start + max else |tokens|;
      Unfold(windows, tokens, start, max, overlap);
      windows := windows + [tokens[start..end]];
      if end >= |tokens| { return; }
      start := end - overlap;
    }
    Unfold(windows, tokens, start, max, overlap);
  }

  lemma Unfold<T>(done: seq<seq<T>>, tokens: seq<T>, start: nat, max: nat, overlap: int)
    requires max >= 1 && overlap < max
    ensures
      var end := if start + max < |tokens| then start + max else |tokens|;
      done + WindowsFrom(tokens, start, max, overlap) ==
        if start >= |tokens| then done
        else if end >= |tokens| then done + [tokens[start..end]]
        else done + [tokens[start..end]] + WindowsFrom(tokens, end - overlap, max, overlap)
  {
    if start < |tokens| {
      var end := if start + max < |tokens| then start + max else |tokens|;
      var rest := if end >= |tokens| then [] else WindowsFrom(tokens, end - overlap, max, overlap);
      assert WindowsFrom(tokens, start, max, overlap) == [tokens[start..end]] + rest;
      hide WindowsFrom;
      Regroup(done, tokens[start..end], rest);
    } else {
      assert done + [] == done;
    }
  }

  lemma Whole<T>(a: seq<T>)
    ensures [] + a == a
  {
  }

  lemma Regroup<T>(a: seq<T>, x: T, b: seq<T>)
    ensures a + ([x] + b) == a + [x] + b && a + [x] + [] == a + [x]
  {
  }

  /** An error exactly when the budget per window is not positive; otherwise the windows of all documents in order,
      and beside each the index of its document. */
  method ChunkDocuments<T>(docs: seq<seq<T>>, max: int, overlap: int) returns (r: Option<(seq<seq<T>>, seq<nat>)>)
    ensures r.None? <==> max < 1
    ensures r.Some? ==>
      r.value == (AllWindows(docs, max, Clamped(max, overlap)), AllIndices(docs, max, Clamped(max, overlap)))
  {
    if max < 1 { return None; }
    var o := Clamped(max, overlap);
    var chunks: seq<seq<T>>, indices: seq<nat> := [], [];
    for idx := 0 to |docs|
      invariant chunks == AllWindows(docs[..idx], max, o) && indices == AllIndices(docs[..idx], max, o)
    {
      assert docs[..idx + 1][..idx] == docs[..idx];
      var windows := SplitTokens(docs[idx], max, o);
      chunks := chunks + windows;
      indices := indices + Repeat(idx, |windows|);
    }
    assert docs[..|docs|] == docs;
    return Some((chunks, indices));
  }

  // ---- What the windows are ----

  /** The windows one after another, the first `overlap` tokens of each dropped. */
  function Tails<T>(windows: seq<seq<T>>, overlap: nat): seq<T>
    requires forall w :: w in windows ==> |w| >= overlap
  {
    if windows == [] then [] else windows[0][overlap..] + Tails(windows[1..], overlap)
  }

  /** The windows hold more than the overlap and at most the budget; their tails are the tokens from `from` on; and
      there are no more of them than needed. */
  ghost predicate Covers<T>(ws: seq<seq<T>>, tokens: seq<T>, from: nat, max: nat, overlap: nat)
    requires overlap < max && from <= |tokens|
  {
    && ws != [] && (forall w :: w in ws ==> overlap < |w| <= max)
    && Tails(ws, overlap) == tokens[from..] && |ws| == Ceil(|tokens| - from, max - overlap)
  }

  lemma CoversLast<T>(last: seq<T>, tokens: seq<T>, from: nat, max: nat, overlap: nat)
    requires overlap < |last| <= max && from < |tokens| && last[overlap..] == tokens[from..]
    ensures Covers([last], tokens, from, max, overlap)
  {
    assert [last][1..] == [] && last[overlap..] + [] == last[overlap..];
  }

  lemma CoversFirst<T>(first: seq<T>, rest: seq<seq<T>>, tokens: seq<T>, from: nat, max: nat, overlap: nat)
    requires overlap < max && from + max - overlap < |tokens| && |first| == max
    requires first[overlap..] == tokens[from..from + max - overlap]
    requires Covers(rest, tokens, from + max - overlap, max, overlap)
    ensures Covers([first] + rest, tokens, from, max, overlap)
  {
    TailsFirst(first, rest, overlap);
    assert tokens[from..from + max - overlap] + tokens[from + max - overlap..] == tokens[from..];
  }

  lemma FirstWindow<T>(tokens: seq<T>, start: nat, max: nat, overlap: nat)
    requires overlap < max && start + overlap < |tokens|
    ensures
      var ws := WindowsFrom(tokens, start, max, overlap);
      if start + max < |tokens|
      then ws == [tokens[start..start + max]] + WindowsFrom(tokens, start + max - overlap, max, overlap)
      else ws == [tokens[start..]]
  {
    if start + max >= |tokens| {
      assert WindowsFrom(tokens, start, max, overlap) == [tokens[start..|tokens|]] + [];
      assert tokens[start..|tokens|] == tokens[start..];
    }
  }

  lemma {:induction false} WindowsFromCover<T>(tokens: seq<T>, start: nat, max: nat, overlap: nat)
    requires overlap < max && start + overlap < |tokens|
    ensures Covers(WindowsFrom(tokens, start, max, overlap), tokens, start + overlap, max, overlap)
    decreases |tokens| - start
  {
    hide WindowsFrom, Covers;
    FirstWindow(tokens, start, max, overlap);
    if start + max < |tokens| {
      var next, first := start + max - overlap, tokens[start..start + max];
      WindowsFromCover(tokens, next, max, overlap);
      assert first[overlap..] == tokens[start + overlap..start + max];
      CoversFirst(first, WindowsFrom(tokens, next, max, overlap), tokens, start + overlap, max, overlap);
    } else {
      assert tokens[start..][overlap..] == tokens[start + overlap..];
      CoversLast(tokens[start..], tokens, start + overlap, max, overlap);
    }
  }

  lemma TailsFirst<T>(first: seq<T>, rest: seq<seq<T>>, overlap: nat)
    requires |first| >= overlap && forall w :: w in rest ==> |w| >= overlap
    ensures Tails([first] + rest, overlap) == first[overlap..] + Tails(rest, overlap)
  {
    assert ([first] + rest)[1..] == rest;
  }

  lemma OneAdvance(k: nat, step: nat)
    requires k > 0
    ensures k * step == step + (k - 1) * step
  {
  }

  lemma WindowsBegin<T>(tokens: seq<T>, start: nat, max: nat, overlap: int)
    requires max >= 1 && overlap < max && start < |tokens|
    ensures
      var ws, next := WindowsFrom(tokens, start, max, overlap), start + (max - overlap);
      && ws != [] && ws[0] == tokens[start..if start + max < |tokens| then start + max else |tokens|]
      && (|ws| > 1 <==> start + max < |tokens| && next < |tokens|)
      && (|ws| > 1 ==> ws[1..] == WindowsFrom(tokens, next, max, overlap))
  {
    var end := if start + max < |tokens| then start + max else |tokens|;
    var rest := if end >= |tokens| then [] else WindowsFrom(tokens, end - overlap, max, overlap);
    assert WindowsFrom(tokens, start, max, overlap) == [tokens[start..end]] + rest;
  }

  /** Window k starts k advances after the first, also where an advance skips tokens. There is a next one exactly if
      this one does not reach the end and the next one starts before it. */
  lemma {:induction false} WindowsStand<T>(tokens: seq<T>, start: nat, max: nat, overlap: int, k: nat, from: nat)
    requires max >= 1 && overlap < max && start < |tokens| && k < |WindowsFrom(tokens, start, max, overlap)|
    requires from == start + k * (max - overlap)
    ensures
      var ws := WindowsFrom(tokens, start, max, overlap);
      && from < |tokens| && ws[k] == tokens[from..if from + max < |tokens| then from + max else |tokens|]
      && (k + 1 < |ws| <==> from + max < |tokens| && from + (max - overlap) < |tokens|)
    decreases k
  {
    hide WindowsFrom;
    WindowsBegin(tokens, start, max, overlap);
    if k > 0 {
      OneAdvance(k, max - overlap);
      WindowsStand(tokens, start + (max - overlap), max, overlap, k - 1, from);
    }
  }

  /** n / step, rounded up. */
  function Ceil(n: nat, step: nat): (q: nat)
    requires step > 0
  {
    if n == 0 then 0 else if n <= step then 1 else 1 + Ceil(n - step, step)
  }

  lemma {:induction false} CeilIsRoundedUp(n: nat, step: nat)
    requires n > 0 && step > 0
    ensures Ceil(n, step) > 0 && (Ceil(n, step) - 1) * step < n <= Ceil(n, step) * step
  {
    if n > step {
      CeilIsRoundedUp(n - step, step);
      var q := Ceil(n - step, step);
      assert q * step == (q - 1) * step + step;
      assert (q + 1) * step == q * step + step;
    }
  }

  /** The windows of a document: none is larger than the budget, without their overlaps they are the document, and a
      document of n > m tokens has ceil((n - o) / (m - o)) of them. */
  lemma WindowsCover<T>(tokens: seq<T>, max: nat, overlap: nat)
    requires overlap < max
    ensures |tokens| <= max ==> Windows(tokens, max, overlap) == [tokens]
    ensures |tokens| > max ==>
      var ws := Windows(tokens, max, overlap);
      Covers(ws, tokens, overlap, max, overlap) && tokens[..overlap] + Tails(ws, overlap) == tokens
  {
    if |tokens| > max {
      hide WindowsFrom, Ceil, Covers;
      WindowsFromCover(tokens, 0, max, overlap);
      CoversWhole(Windows(tokens, max, overlap), tokens, max, overlap);
    }
  }

  lemma CoversWhole<T>(ws: seq<seq<T>>, tokens: seq<T>, max: nat, overlap: nat)
    requires overlap < max && overlap <= |tokens| && Covers(ws, tokens, overlap, max, overlap)
    ensures forall w :: w in ws ==> |w| >= overlap
    ensures tokens[..overlap] + Tails(ws, overlap) == tokens
  {
    hide Ceil, Tails;
    assert tokens[..overlap] + tokens[overlap..] == tokens;
  }

  predicate IsGrouped(indices: seq<nat>, n: nat) {
    && (forall i, j :: 0 <= i <= j < |indices| ==> indices[i] <= indices[j])
    && (forall i :: 0 <= i < |indices| ==> indices[i] < n)
  }

  /** Each window's index is that of a document, and the indices never decrease. */
  lemma {:induction false} IndicesNeverDecrease<T>(docs: seq<seq<T>>, max: nat, overlap: int)
    requires max >= 1 && overlap < max
    ensures IsGrouped(AllIndices(docs, max, overlap), |docs|)
  {
    if docs != [] {
      var last := |docs| - 1;
      IndicesNeverDecrease(docs[..last], max, overlap);
      assert AllIndices(docs, max, overlap) == AllIndices(docs[..last], max, overlap)
        + Repeat(last, |Windows(docs[last], max, overlap)|);
      hide AllIndices, Windows;
    }
  }

  /** The chunks with index d are those from `from` up to `to`, and they are `windows`. */
  ghost predicate IsRange<T>(chunks: seq<seq<T>>, indices: seq<nat>, windows: seq<seq<T>>, d: nat, from: nat, to: nat) {
    && from <= to <= |chunks| && chunks[from..to] == windows
    && forall i :: 0 <= i < |indices| ==> (indices[i] == d <==> from <= i < to)
  }

  lemma SliceOfConcat<T>(a: seq<T>, b: seq<T>)
    ensures (a + b)[|a|..|a| + |b|] == b
    ensures forall from, to :: 0 <= from <= to <= |a| ==> (a + b)[from..to] == a[from..to]
  {
  }

  lemma RangeAppended<T>(chunks: seq<seq<T>>, indices: seq<nat>, own: seq<seq<T>>, last: nat)
    requires |indices| == |chunks| && IsGrouped(indices, last)
    ensures IsRange(chunks + own, indices + Repeat(last, |own|), own, last, |chunks|, |chunks| + |own|)
  {
    assert forall i :: 0 <= i < |indices| ==> indices[i] < last;
    hide IsGrouped;
    SliceOfConcat(chunks, own);
    var all := indices + Repeat(last, |own|);
    forall i | 0 <= i < |all| ensures all[i] == last <==> |chunks| <= i {
      if i < |indices| { assert all[i] == indices[i]; } else { assert all[i] == Repeat(last, |own|)[i - |indices|]; }
    }
  }

  lemma RangeKept<T>(chunks: seq<seq<T>>, indices: seq<nat>, windows: seq<seq<T>>, d: nat, from: nat, to: nat,
                     own: seq<seq<T>>, last: nat)
    requires |indices| == |chunks| && IsRange(chunks, indices, windows, d, from, to) && d != last
    ensures IsRange(chunks + own, indices + Repeat(last, |own|), windows, d, from, to)
  {
    SliceOfConcat(chunks, own);
  }

  /** The windows with index d are those of document d, in order. */
  lemma {:induction false} IndicesGroupWindows<T>(docs: seq<seq<T>>, max: nat, overlap: int, d: nat)
    returns (from: nat, to: nat)
    requires max >= 1 && overlap < max && d < |docs|
    ensures IsRange(AllWindows(docs, max, overlap), AllIndices(docs, max, overlap), Windows(docs[d], max, overlap), d,
      from, to)
  {
    hide IsRange;
    var last := |docs| - 1;
    var init, own := docs[..last], Windows(docs[last], max, overlap);
    var chunks, indices := AllWindows(init, max, overlap), AllIndices(init, max, overlap);
    assert AllWindows(docs, max, overlap) == chunks + own
      && AllIndices(docs, max, overlap) == indices + Repeat(last, |own|);
    if d == last {
      IndicesNeverDecrease(init, max, overlap);
      from, to := |chunks|, |chunks| + |own|;
      RangeAppended(chunks, indices, own, last);
    } else {
      from, to := IndicesGroupWindows(init, max, overlap, d);
      assert init[d] == docs[d];
      RangeKept(chunks, indices, Windows(docs[d], max, overlap), d, from, to, own, last);
    }
  }

  // ---- aggregate_chunk_scores ----

  datatype Aggregation = Max | Mean | First | Unknown

  /** A chunk index with its score, or a document index with its score. */
  datatype Scored = Scored(index: int, score: real)

  /** The scores of document d, in the order the results came. Results with an unknown chunk index are ignored. */
  function ScoresOf(results: seq<Scored>, indices: seq<nat>, d: nat): seq<real> {
    if results == [] then []
    else
      var last := results[|results| - 1];
      ScoresOf(results[..|results| - 1], indices, d)
      + if 0 <= last.index < |indices| && indices[last.index] == d then [last.score] else []
  }

  /** The i-th result is for a window of document d. */
  predicate IsOwn(results: seq<Scored>, indices: seq<nat>, d: int, i: nat) {
    i < |results| && 0 <= results[i].index < |indices| && indices[results[i].index] == d
  }

  function OwnResults(results: seq<Scored>, indices: seq<nat>, d: int): nat -> bool {
    (i: nat) => IsOwn(results, indices, d, i)
  }

  /** The scores are those of the document's own results, in their order. */
  lemma {:induction false} ScoresInOrder(results: seq<Scored>, indices: seq<nat>, d: nat) returns (at: seq<nat>)
    ensures Chooses(at, |results|, OwnResults(results, indices, d)) && |at| == |ScoresOf(results, indices, d)|
    ensures forall i :: 0 <= i < |at| ==>
      at[i] < |results| && ScoresOf(results, indices, d)[i] == results[at[i]].score
  {
    hide Chooses;
    if results == [] {
      at := [];
      NoPlace(OwnResults(results, indices, d));
    } else {
      var last, init := |results| - 1, results[..|results| - 1];
      at := ScoresInOrder(init, indices, d);
      assert forall i :: 0 <= i < last ==> init[i] == results[i];
      NextPlace(at, last, OwnResults(init, indices, d), OwnResults(results, indices, d));
      if IsOwn(results, indices, d, last) { at := at + [last]; }
    }
  }

  function Greatest(s: seq<real>): (m: real)
    requires s != []
    ensures m in s && forall x :: x in s ==> x <= m
  {
    if |s| == 1 then s[0]
    else
      var rest := Greatest(s[1..]);
      assert forall x :: x in s ==> x == s[0] || x in s[1..];
      if s[0] >= rest then s[0] else rest
  }

  function Sum(s: seq<real>): real {
    if s == [] then 0.0 else s[0] + Sum(s[1..])
  }

  lemma {:induction false} SumOfParts(a: seq<real>, b: seq<real>)
    ensures Sum(a + b) == Sum(a) + Sum(b)
    ensures |a| == 1 ==> Sum(a) == a[0]
  {
    if a == [] {
      assert a + b == b;
    } else {
      assert (a + b)[1..] == a[1..] + b;
      SumOfParts(a[1..], b);
    }
  }

  function Combined(how: Aggregation, scores: seq<real>): real
    requires scores != []
  {
    match how
    case Mean => Sum(scores) / |scores| as real
    case First => scores[0]
    case _ => Greatest(scores)
  }

  /** x is the best score of document d's windows. */
  ghost predicate BestOf(results: seq<Scored>, indices: seq<nat>, d: int, x: real) {
    && (exists i: nat :: IsOwn(results, indices, d, i) && results[i].score == x)
    && forall i: nat :: IsOwn(results, indices, d, i) ==> results[i].score <= x
  }

  /** Document d is given the score x: the best one of its windows, the first that came, or their mean. */
  ghost predicate IsScore(results: seq<Scored>, indices: seq<nat>, how: Aggregation, d: nat, x: real) {
    match how
    case Mean => var own := ScoresOf(results, indices, d); own != [] && x * |own| as real == Sum(own)
    case First =>
      exists i: nat :: IsOwn(results, indices, d, i) && x == results[i].score
        && forall j: nat :: j < i ==> !IsOwn(results, indices, d, j)
    case _ => BestOf(results, indices, d, x)
  }

  /** One entry for each of the first n documents that has a score, by document. */
  function PerDocument(results: seq<Scored>, indices: seq<nat>, n: nat, how: Aggregation): seq<Scored> {
    if n == 0 then []
    else
      var scores := ScoresOf(results, indices, n - 1);
      PerDocument(results, indices, n - 1, how) + if scores == [] then [] else [Scored(n - 1, Combined(how, scores))]
  }

  /** list.sort by descending score; it is stable. */
  function Insert(x: Scored, sorted: seq<Scored>): seq<Scored> {
    if sorted == [] || sorted[0].score <= x.score then [x] + sorted else [sorted[0]] + Insert(x, sorted[1..])
  }

  function SortDescending(s: seq<Scored>): seq<Scored> {
    if s == [] then [] else Insert(s[0], SortDescending(s[1..]))
  }

  method AggregateChunkScores(results: seq<Scored>, indices: seq<nat>, n: nat, how: Aggregation)
    returns (r: seq<Scored>)
    requires forall i :: i in indices ==> i < n
    ensures r == SortDescending(PerDocument(results, indices, n, how))
    ensures Ranked(r)
    ensures forall y :: y in r <==> 0 <= y.index < n && IsScore(results, indices, how, y.index, y.score)
  {
    hide ScoresOf, Combined, SortDescending, IsScore, Ranked;
    var scores := GroupScores(results, indices, n);
    var aggregated: seq<Scored> := [];
    for d := 0 to n
      invariant aggregated == PerDocument(results, indices, d, how)
    {
      if scores[d] != [] { aggregated := aggregated + [Scored(d, Combined(how, scores[d]))]; }
    }
    AggregationRanks(results, indices, n, how);
    return SortDescending(aggregated);
  }

  method GroupScores(results: seq<Scored>, indices: seq<nat>, n: nat) returns (scores: seq<seq<real>>)
    requires forall i :: i in indices ==> i < n
    ensures |scores| == n && forall d: nat :: d < n ==> scores[d] == ScoresOf(results, indices, d)
  {
    scores := seq(n, _ => []);
    for i := 0 to |results|
      invariant |scores| == n && forall d: nat :: d < n ==> scores[d] == ScoresOf(results[..i], indices, d)
    {
      assert results[..i + 1][..i] == results[..i];
      var chunk := results[i].index;
      if 0 <= chunk < |indices| {
        var d := indices[chunk];
        assert d in indices;
        scores := scores[d := scores[d] + [results[i].score]];
      }
    }
    assert results[..|results|] == results;
  }

  // ---- The ranking ----

  /** Higher score first; equal scores by document. */
  predicate Before(a: Scored, b: Scored) {
    a.score > b.score || (a.score == b.score && a.index < b.index)
  }

  ghost predicate Ranked(s: seq<Scored>) {
    forall i, j :: 0 <= i < j < |s| ==> Before(s[i], s[j])
  }

  lemma RankedSplit(s: seq<Scored>)
    requires Ranked(s) && s != []
    ensures Ranked(s[1..]) && forall y :: y in s[1..] ==> Before(s[0], y)
  {
    hide Before;
    assert forall i, j :: 0 <= i < j < |s[1..]| ==> s[1..][i] == s[i + 1] && s[1..][j] == s[j + 1];
  }

  lemma RankedFirst(x: Scored, s: seq<Scored>)
    requires Ranked(s) && forall y :: y in s ==> Before(x, y)
    ensures Ranked([x] + s)
  {
    hide Before;
    assert forall j :: 0 <= j < |s| ==> s[j] in s;
  }

  lemma {:induction false} InsertRanks(x: Scored, s: seq<Scored>)
    requires Ranked(s) && forall y :: y in s ==> x.index < y.index
    ensures Ranked(Insert(x, s)) && forall y :: y in Insert(x, s) <==> y == x || y in s
  {
    hide Ranked;
    if s != [] {
      RankedSplit(s);
      assert s == [s[0]] + s[1..];
      if s[0].score > x.score {
        InsertRanks(x, s[1..]);
        RankedFirst(s[0], Insert(x, s[1..]));
        return;
      }
      assert forall y :: y in s ==> y == s[0] || y in s[1..];
    }
    RankedFirst(x, s);
  }

  lemma {:induction false} SortRanks(s: seq<Scored>)
    requires forall i, j :: 0 <= i < j < |s| ==> s[i].index < s[j].index
    ensures Ranked(SortDescending(s)) && forall y :: y in SortDescending(s) <==> y in s
  {
    if s != [] {
      SortRanks(s[1..]);
      assert s == [s[0]] + s[1..];
      InsertRanks(s[0], SortDescending(s[1..]));
    }
  }

  /** Document d has the score x. */
  predicate HasScore(results: seq<Scored>, indices: seq<nat>, how: Aggregation, d: nat, x: real) {
    ScoresOf(results, indices, d) != [] && x == Combined(how, ScoresOf(results, indices, d))
  }

  lemma {:induction false} PerDocumentHolds(results: seq<Scored>, indices: seq<nat>, n: nat, how: Aggregation,
                                            y: Scored)
    ensures y in PerDocument(results, indices, n, how)
      <==> 0 <= y.index < n && HasScore(results, indices, how, y.index, y.score)
  {
    if n > 0 { PerDocumentHolds(results, indices, n - 1, how, y); }
  }

  lemma FirstIsEarliest(results: seq<Scored>, indices: seq<nat>, d: nat, x: real)
    ensures HasScore(results, indices, First, d, x) <==> IsScore(results, indices, First, d, x)
  {
    var at := ScoresInOrder(results, indices, d);
    var scores := ScoresOf(results, indices, d);
    hide ScoresOf;
    if scores != [] {
      var i := at[0];
      assert i in at && IsOwn(results, indices, d, i);
      assert forall j: nat :: IsOwn(results, indices, d, j) ==> j in at;
      assert forall j: nat :: j < i ==> !IsOwn(results, indices, d, j);
      assert scores[0] == results[i].score;
    }
    forall i: nat | IsOwn(results, indices, d, i) && forall j: nat :: j < i ==> !IsOwn(results, indices, d, j)
      ensures scores != [] && scores[0] == results[i].score
    {
      assert i in at && at[0] in at;
    }
  }

  lemma ScoreIff(results: seq<Scored>, indices: seq<nat>, how: Aggregation, d: nat, x: real)
    ensures HasScore(results, indices, how, d, x) <==> IsScore(results, indices, how, d, x)
  {
    match how
    case Mean => hide ScoresOf, Sum;
    case First => FirstIsEarliest(results, indices, d, x);
    case _ => BestIsGreatest(results, indices, d, x); hide ScoresOf, BestOf;
  }

  /** Every document with a score has one entry, and the entries are ranked. */
  lemma AggregationRanks(results: seq<Scored>, indices: seq<nat>, n: nat, how: Aggregation)
    ensures
      var r := SortDescending(PerDocument(results, indices, n, how));
      && Ranked(r)
      && forall y :: y in r <==> 0 <= y.index < n && IsScore(results, indices, how, y.index, y.score)
  {
    var s := PerDocument(results, indices, n, how);
    PerDocumentIsOrdered(results, indices, n, how);
    SortRanks(s);
    hide PerDocument, SortDescending, HasScore, IsScore, Ranked;
    forall y ensures y in s <==> 0 <= y.index < n && IsScore(results, indices, how, y.index, y.score) {
      PerDocumentHolds(results, indices, n, how, y);
      if 0 <= y.index { ScoreIff(results, indices, how, y.index, y.score); }
    }
  }

  predicate IsByDocument(s: seq<Scored>, n: nat) {
    (forall i, j :: 0 <= i < j < |s| ==> s[i].index < s[j].index) && forall i :: 0 <= i < |s| ==> s[i].index < n
  }

  lemma OneMoreDocument(s: seq<Scored>, n: nat, x: real)
    requires IsByDocument(s, n)
    ensures IsByDocument(s, n + 1) && IsByDocument(s + [Scored(n, x)], n + 1)
  {
  }

  lemma {:induction false} PerDocumentIsOrdered(results: seq<Scored>, indices: seq<nat>, n: nat, how: Aggregation)
    ensures IsByDocument(PerDocument(results, indices, n, how), n)
  {
    if n > 0 {
      hide IsByDocument, ScoresOf, Combined;
      PerDocumentIsOrdered(results, indices, n - 1, how);
      var init, scores := PerDocument(results, indices, n - 1, how), ScoresOf(results, indices, n - 1);
      if scores == [] {
        OneMoreDocument(init, n - 1, 0.0);
        assert init + [] == init;
      } else {
        OneMoreDocument(init, n - 1, Combined(how, scores));
      }
    }
  }

  lemma {:induction false} ScoresAreOwn(results: seq<Scored>, indices: seq<nat>, d: nat, x: real)
    ensures x in ScoresOf(results, indices, d) <==>
      exists i: nat :: IsOwn(results, indices, d, i) && results[i].score == x
  {
    if results != [] {
      var init := results[..|results| - 1];
      ScoresAreOwn(init, indices, d, x);
      assert forall i :: 0 <= i < |init| ==> init[i] == results[i];
    }
  }

  function Cut(s: seq<Scored>, topN: Option<nat>): seq<Scored> {
    if topN.Some? && |s| > topN.value then s[..topN.value] else s
  }

  /** Chunk, score, aggregate with the maximum, cut to the top n: every document at most once, with the best score of
      its own windows; ranked, ties by document; and whatever is left out ranks below everything kept. */
  lemma RankingIsBestFirst(results: seq<Scored>, indices: seq<nat>, n: nat, topN: Option<nat>)
    requires forall i :: i in indices ==> i < n
    ensures
      var r := Cut(SortDescending(PerDocument(results, indices, n, Max)), topN);
      && Ranked(r) && (topN.Some? ==> |r| <= topN.value)
      && (forall y :: y in r ==> BestOf(results, indices, y.index, y.score))
      && (forall d, x :: BestOf(results, indices, d, x) && Scored(d, x) !in r ==>
            topN.Some? && |r| == topN.value && forall y :: y in r ==> Before(y, Scored(d, x)))
  {
    var s := PerDocument(results, indices, n, Max);
    PerDocumentIsOrdered(results, indices, n, Max);
    assert forall i, j :: 0 <= i < j < |s| ==> s[i].index < s[j].index;
    forall y { PerDocumentHolds(results, indices, n, Max, y); }
    SortRanks(s);
    var sorted := SortDescending(s);
    hide SortDescending, PerDocument, BestOf, HasScore;
    forall y | y in sorted ensures BestOf(results, indices, y.index, y.score) {
      BestIsGreatest(results, indices, y.index, y.score);
    }
    forall d, x | BestOf(results, indices, d, x) ensures Scored(d, x) in sorted {
      BestIsOfDocument(results, indices, n, d, x);
      BestIsGreatest(results, indices, d, x);
    }
    CutKeepsBest(sorted, topN);
  }

  lemma CutKeepsBest(s: seq<Scored>, topN: Option<nat>)
    requires Ranked(s)
    ensures Ranked(Cut(s, topN)) && (topN.Some? ==> |Cut(s, topN)| <= topN.value)
    ensures forall y :: y in Cut(s, topN) ==> y in s
    ensures forall z :: z in s && z !in Cut(s, topN) ==>
      topN.Some? && |Cut(s, topN)| == topN.value && forall y :: y in Cut(s, topN) ==> Before(y, z)
  {
    var r := Cut(s, topN);
    assert forall i :: 0 <= i < |r| ==> r[i] == s[i];
    forall y, z | y in r && z in s && z !in r ensures Before(y, z) {
      var i :| 0 <= i < |r| && r[i] == y;
      var j :| 0 <= j < |s| && s[j] == z;
      assert j >= |r|;
    }
  }

  lemma BestIsOfDocument(results: seq<Scored>, indices: seq<nat>, n: nat, d: int, x: real)
    requires BestOf(results, indices, d, x) && forall i :: i in indices ==> i < n
    ensures 0 <= d < n
  {
    var i: nat :| IsOwn(results, indices, d, i) && results[i].score == x;
    assert indices[results[i].index] in indices;
  }

  lemma BestIsGreatest(results: seq<Scored>, indices: seq<nat>, d: nat, x: real)
    ensures BestOf(results, indices, d, x) <==> HasScore(results, indices, Max, d, x)
  {
    var scores := ScoresOf(results, indices, d);
    forall y
      ensures y in scores <==> exists i: nat :: IsOwn(results, indices, d, i) && results[i].score == y
    {
      ScoresAreOwn(results, indices, d, y);
    }
    hide ScoresOf;
    if scores != [] && x == Greatest(scores) {
      forall i: nat | IsOwn(results, indices, d, i) ensures results[i].score <= x {
        assert results[i].score in scores;
      }
    }
    if BestOf(results, indices, d, x) {
      assert x in scores;
      assert Greatest(scores) in scores;
    }
  }

  // ---- generic_rerank_api ----

  lemma EveryDocumentHasWindows<T>(docs: seq<seq<T>>, max: nat, overlap: int)
    requires max >= 1 && overlap < max && docs != []
    ensures AllIndices(docs, max, overlap) != []
  {
    var own := Windows(docs[|docs| - 1], max, overlap);
    assert own != [];
    hide Windows;
  }

  /** x is the best score that the service gave to a window of document d. */
  ghost predicate BestWindow<T>(docs: seq<seq<T>>, max: nat, overlap: int, results: seq<Scored>, d: int, x: real)
    requires max >= 1 && overlap < max
  {
    && 0 <= d < |docs|
    && exists from, to {:trigger WindowRange(docs, max, overlap, d, from, to)} ::
         WindowRange(docs, max, overlap, d, from, to) && BestBetween(results, from, to, x)
  }

  /** The windows of document d are those sent from position `from` up to `to`. */
  ghost predicate WindowRange<T>(docs: seq<seq<T>>, max: nat, overlap: int, d: nat, from: nat, to: nat)
    requires max >= 1 && overlap < max && d < |docs|
  {
    IsRange(AllWindows(docs, max, overlap), AllIndices(docs, max, overlap), Windows(docs[d], max, overlap), d, from, to)
  }

  ghost predicate BestBetween(results: seq<Scored>, from: nat, to: nat, x: real) {
    && (exists i :: 0 <= i < |results| && from <= results[i].index < to && results[i].score == x)
    && (forall i :: 0 <= i < |results| && from <= results[i].index < to ==> results[i].score <= x)
  }

  lemma BestIsOfRange<T>(results: seq<Scored>, chunks: seq<seq<T>>, indices: seq<nat>, windows: seq<seq<T>>, d: nat,
                         from: nat, to: nat, x: real)
    requires |chunks| == |indices| && IsRange(chunks, indices, windows, d, from, to)
    ensures BestOf(results, indices, d, x) <==> BestBetween(results, from, to, x)
  {
    forall i: nat | i < |results| ensures IsOwn(results, indices, d, i) <==> from <= results[i].index < to {}
    hide IsRange;
  }

  lemma BestIsOfWindows<T>(docs: seq<seq<T>>, max: nat, overlap: int, results: seq<Scored>, d: int, x: real)
    requires max >= 1 && overlap < max
    ensures BestOf(results, AllIndices(docs, max, overlap), d, x) <==> BestWindow(docs, max, overlap, results, d, x)
  {
    hide AllWindows, AllIndices, Windows, BestOf, BestBetween, IsRange;
    var chunks, indices := AllWindows(docs, max, overlap), AllIndices(docs, max, overlap);
    if 0 <= d < |docs| {
      var f, t := IndicesGroupWindows(docs, max, overlap, d);
      assert WindowRange(docs, max, overlap, d, f, t);
      forall from, to | WindowRange(docs, max, overlap, d, from, to)
        ensures BestOf(results, indices, d, x) <==> BestBetween(results, from, to, x)
      {
        BestIsOfRange(results, chunks, indices, Windows(docs[d], max, overlap), d, from, to, x);
      }
    } else if BestOf(results, indices, d, x) {
      IndicesNeverDecrease(docs, max, overlap);
      assert forall i :: i in indices ==> i < |docs|;
      BestIsOfDocument(results, indices, |docs|, d, x);
    }
  }

  /** What a reranking promises of the results of the service: each document at most once, with the best score of its
      own windows, best first, and nothing left out that ranks above what is kept. */
  ghost predicate IsReranked<T>(r: seq<Scored>, docs: seq<seq<T>>, max: nat, overlap: int, results: seq<Scored>,
                                topN: Option<nat>)
    requires max >= 1 && overlap < max
  {
    && Ranked(r) && (topN.Some? ==> |r| <= topN.value)
    && (forall y :: y in r ==> BestWindow(docs, max, overlap, results, y.index, y.score))
    && (forall d, x :: BestWindow(docs, max, overlap, results, d, x) && Scored(d, x) !in r ==>
          topN.Some? && |r| == topN.value && forall y :: y in r ==> Before(y, Scored(d, x)))
  }

  /** Reranking with chunking: the windows of all documents are scored by the service, which may score any of them, in
      any order; the scores are aggregated and cut. Without documents its answer is passed on. */
  method Rerank<T>(docs: seq<seq<T>>, max: int, overlap: int, service: seq<seq<T>> -> seq<Scored>, topN: Option<nat>)
    returns (r: Option<seq<Scored>>)
    ensures r.None? <==> max < 1
    ensures r.Some? && docs != [] ==>
      var o := Clamped(max, overlap);
      IsReranked(r.value, docs, max, o, service(AllWindows(docs, max, o)), topN)
  {
    hide AllWindows, AllIndices, Windows, BestOf, BestWindow, SortDescending, PerDocument;
    var sent := ChunkDocuments(docs, max, overlap);
    if sent.None? { return None; }
    var (chunks, indices) := sent.value;
    var results := service(chunks);
    if indices == [] {
      if docs != [] { EveryDocumentHasWindows(docs, max, Clamped(max, overlap)); }
      return Some(results);
    }
    IndicesNeverDecrease(docs, max, Clamped(max, overlap));
    assert forall i :: i in indices ==> i < |docs|;
    var aggregated := AggregateChunkScores(results, indices, |docs|, Max);
    RankingIsBestFirst(results, indices, |docs|, topN);
    forall d, x
      ensures BestOf(results, indices, d, x) <==> BestWindow(docs, max, Clamped(max, overlap), results, d, x)
    {
      BestIsOfWindows(docs, max, Clamped(max, overlap), results, d, x);
    }
    return Some(Cut(aggregated, topN));
  }
}
