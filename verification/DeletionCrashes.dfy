/** adelete_by_doc_id over stores that reach the disk one by one: the record of the document's LLM cache entries, how
far it outlasts crashes, and how the deletion of the status row can overtake that of the entries.

A cache whose deletes are buffered deletes all that it is asked to; so a record shrinks only where what it leaves out is
no longer on disk. */
module DeletionCrashes {
  import opened Kg
  import opened Options
  import opened CachedRebuilds
  import opened Deletion

  /** The document's status row, the chunk rows with the cache ids they list, and the cache. */
  datatype Copy = Copy(row: Option<StatusRow>, text: map<Chunk, set<CacheId>>, cache: set<CacheId>)

  datatype State = State(mem: Copy, disk: Copy)

  /** The document's chunks, and every cache id it ever referenced. */
  datatype Target = Target(chunks: set<Chunk>, referenced: set<CacheId>)

  /** An upsert of the row is durable at once; deletes reach the disk with a flush, of each store by itself. */
  datatype Event =
    | Record(ids: set<CacheId>)
    | DropChunks(chunks: set<Chunk>)
    | DropCache(ids: set<CacheId>)
    | DropRow
    | FlushText(chunks: set<Chunk>)
    | FlushCache(ids: set<CacheId>)
    | FlushRow
    | Crash

  function RecordedIds(r: StatusRow): set<CacheId> {
    r.deletionIds + r.parseIds
  }

  ghost predicate Step(t: Target, s: State, e: Event, s': State) {
    match e
    case Record(ids) =>
      && s.mem.row.Some? && (s.mem.row.value.deletionIds <= ids || t.referenced * s.disk.cache <= ids)
      && s'.mem == s.mem.(row := Some(s.mem.row.value.(deletionIds := ids)))
      && s'.disk == s.disk.(row := s'.mem.row)
    case DropChunks(cs) =>
      && s.mem.row.Some? && RowIds(s.mem.text, t.chunks) <= RecordedIds(s.mem.row.value)
      && s' == s.(mem := s.mem.(text := s.mem.text - cs))
    case DropCache(ids) => s.mem.row.Some? && s' == s.(mem := s.mem.(cache := s.mem.cache - ids))
    case DropRow => s.mem.row.Some? && s' == s.(mem := s.mem.(row := None))
    case FlushText(cs) => s' == s.(disk := s.disk.(text := s.disk.text - (cs - s.mem.text.Keys)))
    case FlushCache(ids) => s' == s.(disk := s.disk.(cache := s.disk.cache - (ids - s.mem.cache)))
    case FlushRow => s' == s.(disk := s.disk.(row := s.mem.row))
    case Crash => s' == s.(mem := s.disk)
  }

  ghost predicate IsRun(t: Target, run: seq<State>, events: seq<Event>)
    requires |run| == |events| + 1
  {
    forall i :: 0 <= i < |events| ==> Step(t, run[i], events[i], run[i + 1])
  }

  /** Nothing is pending, and every entry that still exists can be found. */
  ghost predicate Begins(t: Target, s: State) {
    && s.mem == s.disk && s.disk.row.Some?
    && Reachable(t.referenced, s.disk.cache, s.disk.row.value, s.disk.text, t.chunks)
  }

  // ---- The record ----

  /** Memory is behind the disk only by deletes, and the entries on disk can be found without the chunk rows that memory
      has deleted. */
  ghost predicate Inv(t: Target, s: State) {
    && (s.mem.row.Some? ==> s.disk.row == s.mem.row) && s.mem.cache <= s.disk.cache
    && (forall c :: c in s.mem.text ==> c in s.disk.text && s.disk.text[c] == s.mem.text[c])
    && (s.disk.row.Some? ==>
          t.referenced * s.disk.cache <= RecordedIds(s.disk.row.value) + RowIds(s.mem.text, t.chunks))
  }

  lemma StepKeepsInv(t: Target, s: State, e: Event, s': State)
    requires Step(t, s, e, s') && Inv(t, s)
    ensures Inv(t, s')
    ensures s.disk.row.None? ==> s'.disk.row.None?
    ensures s'.disk.cache <= s.disk.cache
  {
  }

  lemma {:induction false} RunKeepsInv(t: Target, run: seq<State>, events: seq<Event>, n: nat)
    requires |run| == |events| + 1 && IsRun(t, run, events) && n < |run| && Begins(t, run[0])
    ensures Inv(t, run[n])
    ensures forall i :: 0 <= i <= n && run[i].disk.row.None? ==> run[n].disk.row.None?
    ensures forall i :: 0 <= i <= n ==> run[n].disk.cache <= run[i].disk.cache
  {
    hide Step, Inv;
    if n == 0 {
      assert Inv(t, run[0]) by { FirstInv(t, run[0]); }
    } else {
      RunKeepsInv(t, run, events, n - 1);
      assert Step(t, run[n - 1], events[n - 1], run[n]);
      StepKeepsInv(t, run[n - 1], events[n - 1], run[n]);
    }
  }

  lemma FirstInv(t: Target, s: State)
    requires Begins(t, s)
    ensures Inv(t, s)
  {
  }

  /** Whatever happens, and whenever the process crashes: as long as the status row is on disk, every cache entry of the
      document that is on disk can be found there from the row or from a chunk row. That is what a retry starts from. */
  lemma RecordOutlastsCrashes(t: Target, run: seq<State>, events: seq<Event>, n: nat)
    requires |run| == |events| + 1 && IsRun(t, run, events) && n < |run| && Begins(t, run[0]) && run[n].disk.row.Some?
    ensures Reachable(t.referenced, run[n].disk.cache, run[n].disk.row.value, run[n].disk.text, t.chunks)
  {
    hide IsRun, Begins;
    RunKeepsInv(t, run, events, n);
    var mem, disk := run[n].mem.text, run[n].disk.text;
    assert RowIds(mem, t.chunks) <= RowIds(disk, t.chunks);
  }

  // ---- Entries without a record ----

  /** The entry is still in the cache, and nothing on disk leads to it any more. */
  ghost predicate Lost(t: Target, s: State, id: CacheId) {
    && id in s.disk.cache
    && (s.disk.row.None? || id !in RecordedIds(s.disk.row.value) + RowIds(s.disk.text, t.chunks))
  }

  /** The row's deletion becomes durable. */
  predicate RowGoes(s: State, s': State) {
    s.disk.row.Some? && s'.disk.row.None?
  }

  /** At some point the row's deletion became durable, and the entry has been on disk ever since. */
  ghost predicate Overtaken(run: seq<State>, n: nat, id: CacheId)
    requires n < |run|
  {
    exists i :: 0 <= i < n && RowGoes(run[i], run[i + 1]) && StaysCached(run, i + 1, n, id)
  }

  ghost predicate StaysCached(run: seq<State>, from: nat, n: nat, id: CacheId)
    requires n < |run|
  {
    forall j :: from <= j <= n ==> id in run[j].disk.cache
  }

  /** An entry that the document references is lost exactly where the row's deletion has become durable while the
      entry was on disk, from where its own deletion has not followed. */
  lemma LostIff(t: Target, run: seq<State>, events: seq<Event>, n: nat, id: CacheId)
    requires |run| == |events| + 1 && IsRun(t, run, events) && n < |run| && Begins(t, run[0]) && id in t.referenced
    ensures Lost(t, run[n], id) <==> Overtaken(run, n, id)
  {
    RunKeepsInv(t, run, events, n);
    hide IsRun, Inv, RowIds;
    if run[n].disk.row.Some? {
      RecordOutlastsCrashes(t, run, events, n);
    } else {
      var i := WhenRowGoes(run, n);
      assert forall j :: i < j <= n ==> run[n].disk.cache <= run[j].disk.cache;
      assert id in run[n].disk.cache ==> StaysCached(run, i + 1, n, id);
    }
  }

  lemma {:induction false} WhenRowGoes(run: seq<State>, n: nat) returns (i: nat)
    requires n < |run| && run[0].disk.row.Some? && run[n].disk.row.None?
    ensures i < n && RowGoes(run[i], run[i + 1])
  {
    if run[n - 1].disk.row.Some? { i := n - 1; } else { i := WhenRowGoes(run, n - 1); }
  }

  /** The flush at the end of a successful deletion runs store by store. If the row goes first and the process then
      crashes, a retry finds no document, and its cache entry is left. */
  lemma RowOvertakesCache() returns (t: Target, run: seq<State>, events: seq<Event>, id: CacheId)
    ensures |run| == |events| + 1 && IsRun(t, run, events) && Begins(t, run[0])
    ensures var end := run[|events|]; end.mem == end.disk && end.mem.row.None? && id in t.referenced && Lost(t, end, id)
  {
    var c := Filed("a", "1", "x");
    id := "entry";
    t := Target({c}, {id});
    var found, kept := StatusRow([c], [], {}, {}, {}), StatusRow([c], [], {}, {id}, {});
    var s0 := Copy(Some(found), map[c := {id}], {id});
    var s1 := s0.(row := Some(kept));
    var s2, s3, s4 := s1.(text := map[]), s1.(text := map[], cache := {}), Copy(None, map[], {});
    events := [Record({id}), DropChunks({c}), DropCache({id}), DropRow, FlushRow, Crash];
    run := [State(s0, s0), State(s1, s1), State(s2, s1), State(s3, s1), State(s4, s1),
            State(s4, s1.(row := None)), State(s1.(row := None), s1.(row := None))];
    assert c in t.chunks && id in s0.text[c] && RowIds(s0.text, t.chunks) == {id};
  }
}
