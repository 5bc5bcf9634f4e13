/** Building the recovery indexes and the tracking rows of a store from before they existed. */
module Migration {
  import opened Kg
  import opened Options
  import opened Places

  /** A processed document with its chunk ids. */
  type DocChunks = (string, seq<string>)

  /** A node or an edge as the graph store returns it: its key, if the record has one, and its `source_id` field, if it
      has one, already split. */
  datatype Record = Record(key: Option<Key>, sources: Option<seq<string>>)

  // ---- _migrate_entity_relation_data ----

  /** The document a chunk is filed under: the last one that lists it. */
  function OwnerOf(docs: seq<DocChunks>, chunk: string): Option<string> {
    if docs == [] then None
    else if chunk in docs[|docs| - 1].1 then Some(docs[|docs| - 1].0)
    else OwnerOf(docs[..|docs| - 1], chunk)
  }

  /** The last document that lists c is the one at i. */
  ghost predicate LastLists(docs: seq<DocChunks>, c: string, i: nat) {
    i < |docs| && c in docs[i].1 && forall j :: i < j < |docs| ==> c !in docs[j].1
  }

  lemma {:induction false} OwnerIsLast(docs: seq<DocChunks>, c: string)
    ensures OwnerOf(docs, c).Some? <==> exists i: nat :: LastLists(docs, c, i)
    ensures forall i: nat :: LastLists(docs, c, i) ==> i < |docs| && OwnerOf(docs, c) == Some(docs[i].0)
  {
    if docs != [] {
      var last, init := |docs| - 1, docs[..|docs| - 1];
      OwnerIsLast(init, c);
      assert forall i :: 0 <= i < last ==> init[i] == docs[i];
      if c in docs[last].1 {
        assert LastLists(docs, c, last);
      } else {
        forall i: nat ensures LastLists(docs, c, i) <==> LastLists(init, c, i) {}
      }
    }
  }

  method ChunkToDoc(docs: seq<DocChunks>) returns (owner: map<string, string>)
    ensures forall c :: c in owner <==> OwnerOf(docs, c).Some?
    ensures forall c :: c in owner ==> OwnerOf(docs, c) == Some(owner[c])
    ensures forall c :: c in owner <==> exists i: nat :: LastLists(docs, c, i)
    ensures forall c, i: nat :: LastLists(docs, c, i) ==> c in owner && owner[c] == docs[i].0
  {
    hide LastLists;
    forall c
      ensures OwnerOf(docs, c).Some? <==> exists i: nat :: LastLists(docs, c, i)
      ensures forall i: nat :: LastLists(docs, c, i) ==> i < |docs| && OwnerOf(docs, c) == Some(docs[i].0)
    {
      OwnerIsLast(docs, c);
    }
    owner := map[];
    for i := 0 to |docs|
      invariant forall c :: c in owner <==> OwnerOf(docs[..i], c).Some?
      invariant forall c :: c in owner ==> OwnerOf(docs[..i], c) == Some(owner[c])
    {
      assert docs[..i + 1][..i] == docs[..i];
      var (d, chunks) := docs[i];
      ghost var before := owner;
      for j := 0 to |chunks|
        invariant forall c :: c in owner <==> c in before || c in chunks[..j]
        invariant forall c :: c in owner ==> owner[c] == if c in chunks[..j] then d else before[c]
      {
        assert chunks[..j + 1] == chunks[..j] + [chunks[j]];
        owner := owner[chunks[j] := d];
      }
      assert chunks[..|chunks|] == chunks;
    }
    assert docs[..|docs|] == docs;
  }

  /** One of the chunks is filed under d. */
  ghost predicate Feeds(sources: seq<string>, docs: seq<DocChunks>, d: string) {
    exists c :: c in sources && OwnerOf(docs, c) == Some(d)
  }

  /** Some record of k has a source chunk filed under d. An empty document id files nothing. */
  ghost predicate Indexed(records: seq<Record>, docs: seq<DocChunks>, d: string, k: Key) {
    d != "" && exists r :: r in records && r.key == Some(k) && r.sources.Some? && Feeds(r.sources.value, docs, d)
  }

  predicate Has(index: map<string, set<Key>>, d: string, k: Key) {
    d in index && k in index[d]
  }

  method BuildIndex(records: seq<Record>, docs: seq<DocChunks>) returns (index: map<string, set<Key>>)
    ensures forall d, k :: Has(index, d, k) <==> Indexed(records, docs, d, k)
    ensures forall d :: d in index ==> index[d] != {}
  {
    hide Feeds;
    var owner := ChunkToDoc(docs);
    index := map[];
    for i := 0 to |records|
      invariant forall d, k :: Has(index, d, k) <==> Indexed(records[..i], docs, d, k)
      invariant forall d :: d in index ==> index[d] != {}
    {
      var r := records[i];
      assert records[..i + 1] == records[..i] + [r];
      if r.sources.Some? && r.key.Some? {
        index := AddSources(index, owner, docs, r.key.value, r.sources.value);
      }
    }
    assert records[..|records|] == records;
  }

  method AddSources(index: map<string, set<Key>>, owner: map<string, string>, ghost docs: seq<DocChunks>, k: Key,
                    sources: seq<string>)
    returns (r: map<string, set<Key>>)
    requires forall c :: c in owner <==> OwnerOf(docs, c).Some?
    requires forall c :: c in owner ==> OwnerOf(docs, c) == Some(owner[c])
    ensures forall d, j :: Has(r, d, j) <==>
      Has(index, d, j) || (j == k && d != "" && Feeds(sources, docs, d))
    ensures (forall d :: d in index ==> index[d] != {}) ==> forall d :: d in r ==> r[d] != {}
  {
    hide OwnerOf;
    r := index;
    assert sources[..0] == [] && forall d :: !Feeds([], docs, d);
    for i := 0 to |sources|
      invariant forall d, j :: Has(r, d, j) <==>
        Has(index, d, j) || (j == k && d != "" && Feeds(sources[..i], docs, d))
      invariant (forall d :: d in index ==> index[d] != {}) ==> forall d :: d in r ==> r[d] != {}
    {
      forall d
        ensures Feeds(sources[..i + 1], docs, d)
          <==> Feeds(sources[..i], docs, d) || OwnerOf(docs, sources[i]) == Some(d)
      {
        FeedsOneMore(sources, i, docs, d);
      }
      ghost var before := r;
      if sources[i] in owner && owner[sources[i]] != "" {
        var d := owner[sources[i]];
        r := r[d := (if d in r then r[d] else {}) + {k}];
      }
      assert forall d, j ::
        Has(r, d, j) <==> Has(before, d, j) || (j == k && d != "" && OwnerOf(docs, sources[i]) == Some(d)) by {
        hide Feeds;
      }
    }
    assert sources[..|sources|] == sources;
  }

  lemma FeedsOneMore(sources: seq<string>, i: nat, docs: seq<DocChunks>, d: string)
    requires i < |sources|
    ensures Feeds(sources[..i + 1], docs, d) <==> Feeds(sources[..i], docs, d) || OwnerOf(docs, sources[i]) == Some(d)
  {
    hide OwnerOf;
    assert sources[..i + 1] == sources[..i] + [sources[i]];
    if OwnerOf(docs, sources[i]) == Some(d) { assert sources[i] in sources[..i + 1]; }
  }

  /** No chunk is listed by two documents. */
  ghost predicate Disjoint(docs: seq<DocChunks>) {
    forall i, j, c :: 0 <= i < |docs| && 0 <= j < |docs| && c in docs[i].1 && c in docs[j].1 ==> docs[i].0 == docs[j].0
  }

  lemma {:induction false} OwnerLists(docs: seq<DocChunks>, c: string, d: string)
    requires Disjoint(docs)
    ensures OwnerOf(docs, c) == Some(d) <==> exists i :: 0 <= i < |docs| && docs[i].0 == d && c in docs[i].1
  {
    if docs != [] {
      var last, init := |docs| - 1, docs[..|docs| - 1];
      assert forall i :: 0 <= i < last ==> init[i] == docs[i];
      OwnerLists(init, c, d);
    }
  }

  /** The index is the exact inverse: k stands under d exactly when a source chunk of k is listed by d. */
  lemma IndexIsInverse(records: seq<Record>, docs: seq<DocChunks>, d: string, k: Key)
    requires Disjoint(docs) && d != ""
    ensures Indexed(records, docs, d, k) <==>
      exists r, c, i :: r in records && r.key == Some(k) && r.sources.Some? && c in r.sources.value
        && 0 <= i < |docs| && docs[i].0 == d && c in docs[i].1
  {
    forall c ensures OwnerOf(docs, c) == Some(d) <==> exists i :: 0 <= i < |docs| && docs[i].0 == d && c in docs[i].1 {
      OwnerLists(docs, c, d);
    }
    hide OwnerOf, Disjoint;
  }

  // ---- _migrate_chunk_tracking_storage ----

  const BATCH_SIZE: nat := 500

  function NonEmpty(sources: seq<string>): seq<string> {
    if sources == [] then []
    else
      var last := sources[|sources| - 1];
      NonEmpty(sources[..|sources| - 1]) + if last == "" then [] else [last]
  }

  /** The row a record gives: none without a key or without sources. */
  function RowOf(r: Record): Option<(Key, seq<string>)> {
    if r.key.None? then None
    else
      var ids := NonEmpty(if r.sources.Some? then r.sources.value else []);
      if ids == [] then None else Some((r.key.value, ids))
  }

  /** One pass over all records; the last row of a key wins. */
  function OnePass(records: seq<Record>): map<Key, seq<string>> {
    if records == [] then map[]
    else
      var init := OnePass(records[..|records| - 1]);
      var row := RowOf(records[|records| - 1]);
      if row.Some? then init[row.value.0 := row.value.1] else init
  }

  lemma {:induction false} OnePassSplits(a: seq<Record>, b: seq<Record>)
    ensures OnePass(a + b) == OnePass(a) + OnePass(b)
  {
    if b == [] {
      assert a + b == a;
    } else {
      var init := b[..|b| - 1];
      assert (a + b)[..|a + b| - 1] == a + init && (a + b)[|a + b| - 1] == b[|b| - 1];
      OnePassSplits(a, init);
    }
  }

  /** Seeding the tracking store 500 records at a time leaves what one pass over all records would: every key with a
      usable record has the sources of its last one, and all other keys keep what they have. */
  method SeedTracking(store: map<Key, seq<string>>, records: seq<Record>) returns (r: map<Key, seq<string>>)
    ensures r == store + OnePass(records)
    ensures forall k :: k in r <==> k in store || AnyUsable(records, k)
    ensures forall k :: k in r ==>
      if AnyUsable(records, k) then IsLastRow(records, k, r[k]) else k in store && r[k] == store[k]
  {
    hide AnyUsable, IsLastRow;
    r := store;
    var batches := (|records| + BATCH_SIZE - 1) / BATCH_SIZE;
    for batch := 0 to batches
      invariant r == store + OnePass(records[..Least(batch * BATCH_SIZE, |records|)])
    {
      var start := batch * BATCH_SIZE;
      var end := Least((batch + 1) * BATCH_SIZE, |records|);
      var payload := Payload(records[start..end]);
      OnePassSplits(records[..start], records[start..end]);
      assert records[..start] + records[start..end] == records[..end];
      r := r + payload;
    }
    assert records[..|records|] == records;
    forall k
      ensures k in OnePass(records) <==> AnyUsable(records, k)
      ensures k in OnePass(records) ==> IsLastRow(records, k, OnePass(records)[k])
    {
      OnePassKeepsLast(records, k);
    }
  }

  function Least(a: nat, b: nat): (m: nat)
    ensures m <= a && m <= b && (m == a || m == b)
  {
    if a < b then a else b
  }

  method Payload(records: seq<Record>) returns (payload: map<Key, seq<string>>)
    ensures payload == OnePass(records)
    ensures forall k :: k in payload <==> AnyUsable(records, k)
    ensures forall k :: k in payload ==> IsLastRow(records, k, payload[k])
  {
    hide AnyUsable, IsLastRow;
    payload := map[];
    for i := 0 to |records|
      invariant payload == OnePass(records[..i])
    {
      assert records[..i + 1][..i] == records[..i];
      var row := RowOf(records[i]);
      if row.Some? { payload := payload[row.value.0 := row.value.1]; }
    }
    assert records[..|records|] == records;
    forall k
      ensures k in payload <==> AnyUsable(records, k)
      ensures k in payload ==> IsLastRow(records, k, payload[k])
    {
      OnePassKeepsLast(records, k);
    }
  }

  // ---- What a seeded row is ----

  /** A record of k that names at least one source. */
  ghost predicate Usable(r: Record, k: Key) {
    r.key == Some(k) && r.sources.Some? && exists c :: c in r.sources.value && c != ""
  }

  ghost predicate AnyUsable(records: seq<Record>, k: Key) {
    exists i :: 0 <= i < |records| && Usable(records[i], k)
  }

  function NamesSource(sources: seq<string>): nat -> bool {
    (n: nat) => n < |sources| && sources[n] != ""
  }

  /** The row is all of the sources but the empty ones, in order and as often as they occur; `at` are their places. */
  ghost predicate Picks(row: seq<string>, sources: seq<string>, at: seq<nat>) {
    && |at| == |row| && Chooses(at, |sources|, NamesSource(sources))
    && forall i :: 0 <= i < |at| ==> at[i] < |sources| && sources[at[i]] == row[i]
  }

  /** It is that of the last usable record of k. */
  ghost predicate IsLastRow(records: seq<Record>, k: Key, row: seq<string>) {
    exists i, at ::
      0 <= i < |records| && Usable(records[i], k) && !AnyUsable(records[i + 1..], k)
      && Picks(row, records[i].sources.value, at)
  }

  lemma NextPicked(row: seq<string>, sources: seq<string>, at: seq<nat>, c: string)
    requires Picks(row, sources, at)
    ensures c == "" ==> Picks(row, sources + [c], at)
    ensures c != "" ==> Picks(row + [c], sources + [c], at + [|sources|])
  {
    NextPlace(at, |sources|, NamesSource(sources), NamesSource(sources + [c]));
  }

  lemma {:induction false} NonEmptyPicks(sources: seq<string>) returns (at: seq<nat>)
    ensures Picks(NonEmpty(sources), sources, at)
  {
    hide Picks;
    if sources == [] {
      at := [];
      NothingPicked();
    } else {
      var last, init := sources[|sources| - 1], sources[..|sources| - 1];
      at := NonEmptyPicks(init);
      NextPicked(NonEmpty(init), init, at, last);
      assert sources == init + [last] && NonEmpty(init) + [] == NonEmpty(init);
      if last != "" { at := at + [|init|]; }
    }
  }

  lemma NothingPicked()
    ensures Picks([], [], [])
  {
  }

  /** A record gives a row for k exactly if it is usable; the row is its sources. */
  lemma RowOfIff(r: Record, k: Key)
    ensures Usable(r, k) <==> RowOf(r).Some? && RowOf(r).value.0 == k
    ensures Usable(r, k) ==> exists at :: Picks(RowOf(r).value.1, r.sources.value, at)
  {
    if r.sources.Some? {
      var at := NonEmptyPicks(r.sources.value);
      SomePicked(NonEmpty(r.sources.value), r.sources.value, at);
    } else {
      NonEmptyOfNone();
    }
    hide NonEmpty, Picks;
  }

  lemma SomePicked(row: seq<string>, sources: seq<string>, at: seq<nat>)
    requires Picks(row, sources, at)
    ensures row != [] <==> exists c :: c in sources && c != ""
  {
    if row != [] { assert at[0] in at && sources[at[0]] in sources; }
    forall c | c in sources && c != "" ensures row != [] {
      var n: nat :| n < |sources| && sources[n] == c;
      assert n in at;
    }
  }

  lemma NonEmptyOfNone()
    ensures NonEmpty([]) == []
  {
  }

  /** Exactly the keys with a usable record have a row, that of their last one. */
  lemma {:induction false} OnePassKeepsLast(records: seq<Record>, k: Key)
    ensures k in OnePass(records) <==> AnyUsable(records, k)
    ensures k in OnePass(records) ==> IsLastRow(records, k, OnePass(records)[k])
  {
    hide RowOf, IsLastRow, AnyUsable, Usable, Picks;
    if records == [] {
      NoneUsable(k);
    } else {
      var last, init := records[|records| - 1], records[..|records| - 1];
      assert records == init + [last];
      OnePassKeepsLast(init, k);
      RowOfIff(last, k);
      OneMoreRecord(init, last, k);
      if Usable(last, k) {
        LastRowIsNew(init, last, k, RowOf(last).value.1);
      } else if k in OnePass(init) {
        LastRowIsOld(init, last, k, OnePass(init)[k]);
      }
    }
  }

  lemma NoneUsable(k: Key)
    ensures !AnyUsable([], k)
  {
  }

  lemma OneMoreRecord(init: seq<Record>, last: Record, k: Key)
    ensures AnyUsable(init + [last], k) <==> AnyUsable(init, k) || Usable(last, k)
  {
    hide Usable;
    var records := init + [last];
    assert records[|init|] == last && forall i :: 0 <= i < |init| ==> records[i] == init[i];
  }

  lemma LastRowIsNew(init: seq<Record>, last: Record, k: Key, row: seq<string>)
    requires Usable(last, k) && exists at :: Picks(row, last.sources.value, at)
    ensures IsLastRow(init + [last], k, row)
  {
    hide Picks;
    var records := init + [last];
    assert records[|init|] == last && records[|init| + 1..] == [];
    NoneUsable(k);
  }

  lemma LastRowIsOld(init: seq<Record>, last: Record, k: Key, row: seq<string>)
    requires IsLastRow(init, k, row) && !Usable(last, k)
    ensures IsLastRow(init + [last], k, row)
  {
    hide Picks, AnyUsable;
    var records := init + [last];
    var i, at :| 0 <= i < |init| && Usable(init[i], k) && !AnyUsable(init[i + 1..], k)
      && Picks(row, init[i].sources.value, at);
    assert records[i] == init[i] && records[i + 1..] == init[i + 1..] + [last];
    OneMoreRecord(init[i + 1..], last, k);
  }
}
