/** Document-scoped identity: what the ids of custom chunks and of their operations are hashes of. */
module Identity {
  import opened Options
  import opened Text
  import opened Trimming

  type Hash = string -> string

  /** MD5, taken as injective; its hexadecimal digest contains no bar. */
  ghost predicate IsHash(md5: Hash) {
    (forall a, b :: md5(a) == md5(b) ==> a == b) && (forall a :: '|' !in md5(a))
  }

  /** The document key with its length in front, then the rest. */
  function Scoped(doc: string, rest: string): string {
    Decimal(|doc|) + ":" + doc + ":" + rest
  }

  function ChunkId(md5: Hash, doc: string, text: string): string {
    "chunk-" + md5(Scoped(doc, text))
  }

  function OperationId(md5: Hash, doc: string, ids: seq<string>): string {
    "op-" + md5(Scoped(doc, Join(ids, "|")))
  }

  // ---- Length prefixes ----

  /** What stands before the first mark, and what after it. */
  lemma FirstMark(mark: char, a: string, b: string, p: string, q: string)
    requires mark !in a && mark !in p && a + [mark] + b == p + [mark] + q
    ensures a == p && b == q
  {
    var s := a + [mark] + b;
    assert s[|a|] == mark && s[|p|] == mark;
    assert forall i :: 0 <= i < |a| ==> s[i] == a[i];
    assert forall i :: 0 <= i < |p| ==> s[i] == p[i];
    assert s[..|a|] == a && s[..|p|] == p && s[|a| + 1..] == b && s[|p| + 1..] == q;
  }

  /** The pair is recovered from what is hashed. */
  lemma ScopedIsInjective(doc: string, rest: string, doc': string, rest': string)
    requires Scoped(doc, rest) == Scoped(doc', rest')
    ensures doc == doc' && rest == rest'
  {
    DecimalReadsBack(|doc|);
    DecimalReadsBack(|doc'|);
    var tail, tail' := doc + ":" + rest, doc' + ":" + rest';
    assert Scoped(doc, rest) == Decimal(|doc|) + ":" + tail && Scoped(doc', rest') == Decimal(|doc'|) + ":" + tail';
    FirstMark(':', Decimal(|doc|), tail, Decimal(|doc'|), tail');
    assert tail[..|doc|] == doc && tail'[..|doc'|] == doc' && tail[|doc| + 1..] == rest && tail'[|doc'| + 1..] == rest';
  }

  /** Without the length, "a" with "bc" and "ab" with "c" would hash alike. */
  lemma PlainConcatenationIsNot()
    ensures "a" + "bc" == "ab" + "c" && Scoped("a", "bc") != Scoped("ab", "c")
  {
    if Scoped("a", "bc") == Scoped("ab", "c") { ScopedIsInjective("a", "bc", "ab", "c"); }
  }

  /** A chunk id belongs to one document and one text. */
  lemma ChunkIdsAreDocumentScoped(md5: Hash, doc: string, text: string, doc': string, text': string)
    requires IsHash(md5)
    ensures ChunkId(md5, doc, text) == ChunkId(md5, doc', text') <==> doc == doc' && text == text'
  {
    if ChunkId(md5, doc, text) == ChunkId(md5, doc', text') {
      assert ChunkId(md5, doc, text)[6..] == md5(Scoped(doc, text))
        && ChunkId(md5, doc', text')[6..] == md5(Scoped(doc', text'));
      ScopedIsInjective(doc, text, doc', text');
    }
  }

  // ---- Operation ids ----

  lemma {:induction false} BarsAreInjective(ids: seq<string>, ids': seq<string>)
    requires (forall i :: i in ids ==> i != "" && '|' !in i) && (forall i :: i in ids' ==> i != "" && '|' !in i)
    requires Join(ids, "|") == Join(ids', "|")
    ensures ids == ids'
  {
    BarsTell(ids);
    BarsTell(ids');
    if |ids| > 1 && |ids'| > 1 {
      assert ids[0] in ids && ids'[0] in ids';
      FirstMark('|', ids[0], Join(ids[1..], "|"), ids'[0], Join(ids'[1..], "|"));
      assert (forall i :: i in ids[1..] ==> i in ids) && (forall i :: i in ids'[1..] ==> i in ids');
      BarsAreInjective(ids[1..], ids'[1..]);
      assert ids == [ids[0]] + ids[1..] && ids' == [ids'[0]] + ids'[1..];
    }
  }

  /** A bar shows that there is more than one id. */
  lemma BarsTell(ids: seq<string>)
    requires forall i :: i in ids ==> i != "" && '|' !in i
    ensures '|' in Join(ids, "|") <==> |ids| > 1
    ensures Join(ids, "|") == "" <==> ids == []
    ensures |ids| == 1 ==> ids == [Join(ids, "|")]
  {
    if |ids| == 1 {
      ConcatOne(ids[0]);
      assert ids == [ids[0]] && ids[0] in ids;
    } else if |ids| > 1 {
      assert Join(ids, "|")[|ids[0]|] == '|';
    }
  }

  function ChunkIdsOf(md5: Hash, doc: string, texts: seq<string>): seq<string> {
    if texts == [] then [] else [ChunkId(md5, doc, texts[0])] + ChunkIdsOf(md5, doc, texts[1..])
  }

  lemma {:induction false} ChunkIdsHaveNoBars(md5: Hash, doc: string, texts: seq<string>)
    requires IsHash(md5)
    ensures forall i :: i in ChunkIdsOf(md5, doc, texts) ==> i != "" && '|' !in i
  {
    if texts != [] { ChunkIdsHaveNoBars(md5, doc, texts[1..]); }
  }

  lemma {:induction false} ChunkIdsDetermineTexts(md5: Hash, doc: string, texts: seq<string>, texts': seq<string>)
    requires IsHash(md5) && ChunkIdsOf(md5, doc, texts) == ChunkIdsOf(md5, doc, texts')
    ensures texts == texts'
  {
    if texts != [] && texts' != [] {
      var ids, ids' := ChunkIdsOf(md5, doc, texts), ChunkIdsOf(md5, doc, texts');
      assert ids[0] == ChunkId(md5, doc, texts[0]) && ids'[0] == ChunkId(md5, doc, texts'[0]);
      assert ids[1..] == ChunkIdsOf(md5, doc, texts[1..]) && ids'[1..] == ChunkIdsOf(md5, doc, texts'[1..]);
      ChunkIdsAreDocumentScoped(md5, doc, texts[0], doc, texts'[0]);
      ChunkIdsDetermineTexts(md5, doc, texts[1..], texts'[1..]);
      assert texts == [texts[0]] + texts[1..] && texts' == [texts'[0]] + texts'[1..];
    }
  }

  /** The same operation id means the same document and the same texts in the same order; so a repeated call is the
      same operation, and no other call is. */
  lemma OperationIdIsTheInput(md5: Hash, doc: string, texts: seq<string>, doc': string, texts': seq<string>)
    requires IsHash(md5)
    ensures OperationId(md5, doc, ChunkIdsOf(md5, doc, texts)) == OperationId(md5, doc', ChunkIdsOf(md5, doc', texts'))
      <==> doc == doc' && texts == texts'
  {
    var ids, ids' := ChunkIdsOf(md5, doc, texts), ChunkIdsOf(md5, doc', texts');
    if OperationId(md5, doc, ids) == OperationId(md5, doc', ids') {
      assert OperationId(md5, doc, ids)[3..] == md5(Scoped(doc, Join(ids, "|")))
          && OperationId(md5, doc', ids')[3..] == md5(Scoped(doc', Join(ids', "|")));
      ScopedIsInjective(doc, Join(ids, "|"), doc', Join(ids', "|"));
      ChunkIdsHaveNoBars(md5, doc, texts);
      ChunkIdsHaveNoBars(md5, doc', texts');
      BarsAreInjective(ids, ids');
      ChunkIdsDetermineTexts(md5, doc, texts, texts');
    }
  }
}
