/** What every step of the custom-chunk protocol keeps, whatever fails and whenever the process crashes. */
module Safety {
  import opened Kg
  import opened Options
  import opened Protocol

  /** The part of a state that decides which citations are legitimate. */
  datatype View = View(done: Committed, rows: map<Doc, Row>, memText: set<Chunk>, diskText: set<Chunk>)

  function ViewOf(s: State): View {
    View(s.done, s.disk.rows, s.mem.text, s.disk.text)
  }

  /** The durable journal of the chunk's document stages the chunk and names the object as a candidate. */
  ghost predicate Pending(ex: Chunk -> Extraction, rows: map<Doc, Row>, k: Key, c: Chunk) {
    && HasJournal(rows, c.doc)
    && c in rows[c.doc].journal.value.chunks
    && k in Contributed(ex(c))
    && k in rows[c.doc].journal.value.cands
  }

  /** Legitimate citation: committed, or journaled with its chunk row present in memory and on disk. */
  ghost predicate Backed(ex: Chunk -> Extraction, v: View, k: Key, c: Chunk) {
    Cites(v.done.graph, k, c) || (Pending(ex, v.rows, k, c) && c in v.memText && c in v.diskText)
  }

  ghost predicate AllBacked(ex: Chunk -> Extraction, v: View, k: Key, sources: set<Chunk>) {
    forall c :: c in sources ==> Backed(ex, v, k, c)
  }

  /** A committed citation of the object names a chunk of the document. */
  ghost predicate Owns(c: Committed, d: Doc, k: Key) {
    exists b :: Cites(c.graph, k, b) && b.doc == d
  }

  ghost predicate DoneOk(ex: Chunk -> Extraction, c: Committed) {
    && (forall k :: k in c.graph ==> c.graph[k] != {})
    && (forall k :: k in c.graph && k.Rel? ==>
          Ent(k.src) in c.graph && Ent(k.tgt) in c.graph
          && c.graph[k] <= c.graph[Ent(k.src)] && c.graph[k] <= c.graph[Ent(k.tgt)])
    && (forall k, b :: Cites(c.graph, k, b) ==>
          b.doc in c.rows && b in c.rows[b.doc].chunks && (b.doc == "" || (b.doc, k) in c.anchors))
    && (forall k :: ("", k) in c.anchors ==> "" in c.rows)
    && (forall d :: d in c.rows ==> c.rows[d].journal.None? && RowTextOk(ex, c, d, c.rows[d].chunks))
    && (forall b :: b in c.text && b.Custom? ==> b.doc in c.rows && b in c.rows[b.doc].chunks)
  }

  /** A committed row lists chunks of its own document, stored, and already merged if they are custom. */
  ghost predicate RowTextOk(ex: Chunk -> Extraction, c: Committed, d: Doc, chunks: seq<Chunk>) {
    forall b :: b in chunks ==>
      b.doc == d && b in c.text && (b.Custom? ==> forall k :: k in Contributed(ex(b)) ==> Cites(c.graph, k, b))
  }

  ghost predicate JournalOk(ex: Chunk -> Extraction, c: Committed, d: Doc, r: Row) {
    r.journal.Some? ==>
      var j := r.journal.value;
      && (r.status == Processing || r.status == Failed)
      && Submittable(d, j.chunks)
      && (j.cands == {} || j.cands == CandidatesOf(ex, Elems(j.chunks)))
      && (match j.mode
          case Create => d !in c.rows && d !in c.bodies && r.chunks == [] && j.chunks == j.op
          case Patch =>
            && d in c.rows && c.rows[d] == Row(Processed, r.chunks, None)
            && j.chunks == Fresh(j.op, r.chunks, c.text))
  }

  ghost predicate RowsOk(ex: Chunk -> Extraction, c: Committed, rows: map<Doc, Row>) {
    && (forall d :: d in rows ==> JournalOk(ex, c, d, rows[d]))
    && (forall d :: d in rows && rows[d].journal.None? ==> d in c.rows && c.rows[d] == rows[d])
    && (forall d :: d in c.rows ==> d in rows)
  }

  ghost predicate GraphOk(ex: Chunk -> Extraction, v: View, g: Provenance) {
    && EndpointsPresent(g)
    && (forall k :: k in v.done.graph ==> k in g && v.done.graph[k] <= g[k])
    && (forall k :: k in g ==> g[k] != {} && AllBacked(ex, v, k, g[k]))
  }

  /** `live` holds the objects present in either copy of the graph. Rows of other objects may be left over
      from a rolled-back merge. */
  ghost predicate TrackingOk(ex: Chunk -> Extraction, v: View, live: set<Key>, t: Provenance) {
    && (forall k :: k in v.done.graph && k in t && t[k] != {} ==> v.done.graph[k] <= t[k])
    && (forall k :: k in live && k in t ==> AllBacked(ex, v, k, t[k]))
    && (forall k, c :: Cites(t, k, c) ==> Cites(v.done.graph, k, c) || (c.Custom? && k in Contributed(ex(c))))
  }

  ghost predicate TextOk(v: View, text: set<Chunk>) {
    && v.done.text <= text
    && forall c :: c in text ==> c in v.done.text || c in StagedBy(v.rows, c.doc)
  }

  ghost predicate AnchorsOk(v: View, a: set<(Doc, Key)>) {
    && (forall k, c :: Cites(v.done.graph, k, c) && (c.doc, k) in v.done.anchors ==> (c.doc, k) in a)
    && (forall d, k :: (d, k) in a ==> (d, k) in v.done.anchors || Owns(v.done, d, k) || Announced(v.rows, d, k))
  }

  /** The open operation of the document may have anchored the object. */
  predicate Announced(rows: map<Doc, Row>, d: Doc, k: Key) {
    HasJournal(rows, d) && k in rows[d].journal.value.cands && IsAnchored(d, rows[d].journal.value.mode)
  }

  ghost predicate BodiesOk(v: View, b: set<Doc>) {
    && v.done.bodies <= b
    && forall d :: d in b && d in v.rows ==>
         d in v.done.bodies || (HasJournal(v.rows, d) && v.rows[d].journal.value.mode == Create)
  }

  function LiveKeys(s: State): set<Key> {
    s.mem.graph.Keys + s.disk.graph.Keys
  }

  ghost predicate NoneCited(p: Provenance, keys: set<Key>, staged: set<Chunk>) {
    forall k, c :: k in keys && c in staged ==> !Cites(p, k, c)
  }

  /** No graph object, and no tracking row of a graph object, cites the chunks. */
  ghost predicate CleanKg(s: State, staged: set<Chunk>) {
    && NoneCited(s.mem.graph, LiveKeys(s), staged) && NoneCited(s.disk.graph, LiveKeys(s), staged)
    && NoneCited(s.mem.tracking, LiveKeys(s), staged) && NoneCited(s.disk.tracking, LiveKeys(s), staged)
  }

  ghost predicate Clean(s: State, staged: set<Chunk>) {
    CleanKg(s, staged) && staged !! s.mem.text && staged !! s.disk.text
  }

  ghost predicate NoAnchors(s: State, d: Doc) {
    forall k :: (d, k) !in s.mem.anchors && (d, k) !in s.disk.anchors
  }

  /** In memory, doc_status may only lack rows of documents whose creation has been rolled back. */
  ghost predicate MemRowsOk(s: State) {
    && (forall d :: d in s.mem.rows ==> d in s.disk.rows && s.disk.rows[d] == s.mem.rows[d])
    && (forall d :: d in s.disk.rows && d !in s.mem.rows ==>
          HasJournal(s.disk.rows, d) && s.disk.rows[d].journal.value.mode == Create
          && Clean(s, StagedBy(s.disk.rows, d)) && NoAnchors(s, d))
  }

  // ---- The operation in progress ----

  ghost predicate Anchored(s: State, d: Doc, cands: set<Key>) {
    forall k :: k in cands ==> (d, k) in s.mem.anchors && (d, k) in s.disk.anchors
  }

  /** The tracking rows a merge will read name only legitimate sources. */
  ghost predicate LiveRows(ex: Chunk -> Extraction, v: View, t: Provenance, keys: set<Key>) {
    forall k :: k in keys && k in t ==> AllBacked(ex, v, k, t[k])
  }

  ghost predicate InsertOk(ex: Chunk -> Extraction, s: State)
    requires s.op.Insert?
  {
    && HasJournal(s.mem.rows, s.op.doc)
    && var j := Jn(s);
    && (s.op.at != Staging ==>
          Batch(s) <= s.mem.text && Batch(s) <= s.disk.text
          && (j.mode == Create ==> s.op.doc in s.mem.bodies && s.op.doc in s.disk.bodies))
    && (s.op.at != Staging && s.op.at != Staged ==> j.cands == CandidatesOf(ex, Batch(s)))
    && (IsAnchored(s.op.doc, j.mode)
        && (s.op.at == Ready || (j.mode == Create && (s.op.at == Merging || s.op.at == Merged))) ==>
          Anchored(s, s.op.doc, j.cands))
    && (s.op.at == Merging ==>
          LiveRows(ex, ViewOf(s), s.mem.tracking, ContributedBy(ex, Batch(s)))
          && LiveRows(ex, ViewOf(s), s.disk.tracking, ContributedBy(ex, Batch(s))))
    && (s.op.at == Merged || s.op.at == Ready ==>
          MergeComplete(ex, s.mem, Batch(s)) && MergeComplete(ex, s.disk, Batch(s)))
  }

  ghost predicate PlanOk(ex: Chunk -> Extraction, s: State, staged: set<Chunk>, cands: set<Key>, p: Plan) {
    && (forall k :: k in p.drop ==> k !in s.done.graph && k !in p.rebuild)
    && (forall k :: k in p.rebuild ==>
          p.rebuild[k] != {} && p.rebuild[k] !! staged && AllBacked(ex, ViewOf(s), k, p.rebuild[k])
          && Sources(s.done.graph, k) <= p.rebuild[k])
    && (forall k :: k in s.mem.graph && k in cands ==> k in p.drop || k in p.rebuild)
  }

  ghost predicate RollOk(ex: Chunk -> Extraction, s: State)
    requires s.op.Roll?
  {
    if s.op.stage == RowDropped then s.op.doc !in s.mem.rows
    else
      && HasJournal(s.mem.rows, s.op.doc)
      && PlanOk(ex, s, Batch(s), Jn(s).cands, s.op.plan)
      && (s.op.stage != Cutting ==> CutDone(s.mem, s.op.plan))
      && (s.op.stage != Cutting && s.op.stage != Rebuilding ==> CleanKg(s, Batch(s)))
      && (s.op.stage == Emptied || s.op.stage == Unanchored ==> Clean(s, Batch(s)))
      && (s.op.stage == Unanchored ==> Jn(s).mode == Create && NoAnchors(s, s.op.doc))
  }

  ghost predicate OpOk(ex: Chunk -> Extraction, s: State) {
    (s.op.Insert? ==> InsertOk(ex, s)) && (s.op.Roll? ==> RollOk(ex, s))
  }

  ghost predicate StoresOk(ex: Chunk -> Extraction, v: View, live: set<Key>, st: Stores) {
    && GraphOk(ex, v, st.graph)
    && TrackingOk(ex, v, live, st.tracking)
    && TextOk(v, st.text)
    && AnchorsOk(v, st.anchors)
    && BodiesOk(v, st.bodies)
  }

  ghost predicate Inv(ex: Chunk -> Extraction, s: State) {
    && DoneOk(ex, s.done)
    && RowsOk(ex, s.done, s.disk.rows)
    && StoresOk(ex, ViewOf(s), LiveKeys(s), s.mem)
    && StoresOk(ex, ViewOf(s), LiveKeys(s), s.disk)
    && MemRowsOk(s)
    && OpOk(ex, s)
  }

  /** The one thing a caller must check: when a merge begins, no object that it will add to the graph has a
      tracking row left over from elsewhere that names illegitimate sources (see modules Leak and Necessity). */
  ghost predicate Careful(ex: Chunk -> Extraction, s: State, e: Event)
    requires Enabled(ex, s, e)
  {
    e == Ins(BeginMerge) ==>
      var added := ContributedBy(ex, Batch(s)) - LiveKeys(s);
      LiveRows(ex, ViewOf(s), s.mem.tracking, added) && LiveRows(ex, ViewOf(s), s.disk.tracking, added)
  }

  /** From s, event e is possible and leads to s'. */
  ghost predicate Step(ex: Chunk -> Extraction, s: State, e: Event, s': State) {
    Enabled(ex, s, e) && Careful(ex, s, e) && s' == Next(ex, s, e)
  }

  // ---- Facts read off the invariant ----

  lemma GraphPart(ex: Chunk -> Extraction, s: State)
    requires Inv(ex, s)
    ensures GraphOk(ex, ViewOf(s), s.mem.graph) && GraphOk(ex, ViewOf(s), s.disk.graph)
  {
    hide DoneOk, RowsOk, MemRowsOk, OpOk, GraphOk, TrackingOk, TextOk, AnchorsOk, BodiesOk;
  }

  lemma TrackingPart(ex: Chunk -> Extraction, s: State)
    requires Inv(ex, s)
    ensures TrackingOk(ex, ViewOf(s), LiveKeys(s), s.mem.tracking)
    ensures TrackingOk(ex, ViewOf(s), LiveKeys(s), s.disk.tracking)
  {
    hide DoneOk, RowsOk, MemRowsOk, OpOk, GraphOk, TrackingOk, TextOk, AnchorsOk, BodiesOk;
  }

  lemma SetsPart(ex: Chunk -> Extraction, s: State)
    requires Inv(ex, s)
    ensures TextOk(ViewOf(s), s.mem.text) && TextOk(ViewOf(s), s.disk.text)
    ensures AnchorsOk(ViewOf(s), s.mem.anchors) && AnchorsOk(ViewOf(s), s.disk.anchors)
    ensures BodiesOk(ViewOf(s), s.mem.bodies) && BodiesOk(ViewOf(s), s.disk.bodies)
  {
    hide DoneOk, RowsOk, MemRowsOk, OpOk, GraphOk, TrackingOk, TextOk, AnchorsOk, BodiesOk;
  }

  lemma RowsPart(ex: Chunk -> Extraction, s: State)
    requires Inv(ex, s)
    ensures DoneOk(ex, s.done) && RowsOk(ex, s.done, s.disk.rows) && MemRowsOk(s)
  {
    hide DoneOk, RowsOk, MemRowsOk, OpOk, StoresOk;
  }

  lemma OpPart(ex: Chunk -> Extraction, s: State)
    requires Inv(ex, s)
    ensures OpOk(ex, s)
  {
    hide DoneOk, RowsOk, MemRowsOk, OpOk, StoresOk;
  }

  /** The invariant, put together from its parts. */
  lemma InvFromParts(ex: Chunk -> Extraction, s: State)
    requires DoneOk(ex, s.done) && RowsOk(ex, s.done, s.disk.rows) && MemRowsOk(s) && OpOk(ex, s)
    requires GraphOk(ex, ViewOf(s), s.mem.graph) && GraphOk(ex, ViewOf(s), s.disk.graph)
    requires TrackingOk(ex, ViewOf(s), LiveKeys(s), s.mem.tracking)
    requires TrackingOk(ex, ViewOf(s), LiveKeys(s), s.disk.tracking)
    requires TextOk(ViewOf(s), s.mem.text) && TextOk(ViewOf(s), s.disk.text)
    requires AnchorsOk(ViewOf(s), s.mem.anchors) && AnchorsOk(ViewOf(s), s.disk.anchors)
    requires BodiesOk(ViewOf(s), s.mem.bodies) && BodiesOk(ViewOf(s), s.disk.bodies)
    ensures Inv(ex, s)
  {
    hide DoneOk, RowsOk, MemRowsOk, OpOk, GraphOk, TrackingOk, TextOk, AnchorsOk, BodiesOk;
  }

  lemma JournalFacts(ex: Chunk -> Extraction, s: State, d: Doc)
    requires Inv(ex, s) && HasJournal(s.mem.rows, d)
    ensures d in s.disk.rows && s.disk.rows[d] == s.mem.rows[d]
    ensures JournalOk(ex, s.done, d, s.mem.rows[d])
    ensures s.mem.rows[d].journal.value.mode == Patch ==>
      forall c :: c in s.mem.rows[d].chunks ==> c in s.done.text && c in s.mem.text && c in s.disk.text
  {
    hide GraphOk, TrackingOk, AnchorsOk, BodiesOk, Clean, OpOk;
    assert JournalOk(ex, s.done, d, s.disk.rows[d]);
    if s.mem.rows[d].journal.value.mode == Patch {
      assert RowTextOk(ex, s.done, d, s.done.rows[d].chunks);
    }
  }

  lemma OwnChunks(ex: Chunk -> Extraction, s: State, d: Doc)
    requires HasJournal(s.mem.rows, d)
    requires Inv(ex, s)
    ensures forall b :: b in s.mem.rows[d].journal.value.chunks ==> b.doc == d && b.Custom?
  {
    hide Inv, CandidatesOf;
    JournalFacts(ex, s, d);
  }

  lemma CommittedRowFacts(ex: Chunk -> Extraction, s: State, d: Doc)
    requires Inv(ex, s) && d in s.mem.rows && s.mem.rows[d].journal.None?
    ensures d in s.done.rows && s.done.rows[d] == s.mem.rows[d]
    ensures forall c :: c in s.mem.rows[d].chunks ==> c in s.done.text && c in s.mem.text && c in s.disk.text
  {
    hide GraphOk, TrackingOk, AnchorsOk, BodiesOk, Clean, OpOk;
    assert RowTextOk(ex, s.done, d, s.done.rows[d].chunks);
  }

  lemma AbsentDocIsUncommitted(ex: Chunk -> Extraction, s: State, d: Doc)
    requires Inv(ex, s) && d !in s.mem.rows
    ensures d !in s.done.rows && (d !in s.mem.bodies ==> d !in s.done.bodies)
  {
    hide GraphOk, TrackingOk, AnchorsOk, TextOk, DoneOk, Clean, OpOk;
    assert d in s.disk.rows ==> JournalOk(ex, s.done, d, s.disk.rows[d]);
  }

  // ---- Persistence steps: any store may take over any part of its other copy ----

  ghost predicate RowwiseFrom(t: Provenance, a: Provenance, b: Provenance) {
    && (forall k :: k in t ==> (k in a && t[k] == a[k]) || (k in b && t[k] == b[k]))
    && (forall k :: k in a && k in b ==> k in t)
  }

  ghost predicate Between<T(!new)>(x: set<T>, a: set<T>, b: set<T>) {
    (forall y :: y in a && y in b ==> y in x) && (forall y :: y in x ==> y in a || y in b)
  }

  /** s' has the rows and history of s, and each store copy of s' is put together from the two copies in s. */
  ghost predicate Mixed(s: State, s': State) {
    && s'.done == s.done && s'.mem.rows == s.mem.rows && s'.disk.rows == s.disk.rows
    && (s'.mem.graph == s.mem.graph || s'.mem.graph == s.disk.graph)
    && (s'.disk.graph == s.mem.graph || s'.disk.graph == s.disk.graph)
    && RowwiseFrom(s'.mem.tracking, s.mem.tracking, s.disk.tracking)
    && RowwiseFrom(s'.disk.tracking, s.mem.tracking, s.disk.tracking)
    && Between(s'.mem.text, s.mem.text, s.disk.text) && Between(s'.disk.text, s.mem.text, s.disk.text)
    && Between(s'.mem.anchors, s.mem.anchors, s.disk.anchors) && Between(s'.disk.anchors, s.mem.anchors, s.disk.anchors)
    && Between(s'.mem.bodies, s.mem.bodies, s.disk.bodies) && Between(s'.disk.bodies, s.mem.bodies, s.disk.bodies)
  }

  /** v' keeps what v backs. */
  ghost predicate Extends(v: View, v': View) {
    v'.done == v.done && v'.rows == v.rows
    && forall c :: c in v.memText && c in v.diskText ==> c in v'.memText && c in v'.diskText
  }

  lemma GraphExtends(ex: Chunk -> Extraction, v: View, v': View, g: Provenance)
    requires GraphOk(ex, v, g) && Extends(v, v')
    ensures GraphOk(ex, v', g)
  {
  }

  lemma TrackingMixes(ex: Chunk -> Extraction, v: View, v': View, live: set<Key>, live': set<Key>,
                      a: Provenance, b: Provenance, t: Provenance)
    requires TrackingOk(ex, v, live, a) && TrackingOk(ex, v, live, b) && Extends(v, v')
    requires live' <= live && RowwiseFrom(t, a, b)
    ensures TrackingOk(ex, v', live', t)
  {
  }

  lemma CleanMixes(s: State, s': State, staged: set<Chunk>)
    requires Clean(s, staged) && Mixed(s, s')
    ensures Clean(s', staged)
  {
  }

  lemma CleanKgMixes(s: State, s': State, staged: set<Chunk>)
    requires CleanKg(s, staged) && Mixed(s, s')
    ensures CleanKg(s', staged)
  {
  }

  lemma MemRowsMix(s: State, s': State)
    requires MemRowsOk(s) && Mixed(s, s')
    ensures MemRowsOk(s')
  {
    hide Clean;
    forall d | d in s.disk.rows && d !in s.mem.rows
      ensures Clean(s', StagedBy(s.disk.rows, d)) && NoAnchors(s', d)
    {
      CleanMixes(s, s', StagedBy(s.disk.rows, d));
    }
  }

  lemma MixKeepsStores(ex: Chunk -> Extraction, s: State, s': State)
    requires StoresOk(ex, ViewOf(s), LiveKeys(s), s.mem) && StoresOk(ex, ViewOf(s), LiveKeys(s), s.disk)
    requires Mixed(s, s')
    ensures StoresOk(ex, ViewOf(s'), LiveKeys(s'), s'.mem) && StoresOk(ex, ViewOf(s'), LiveKeys(s'), s'.disk)
  {
    hide GraphOk, TrackingOk, RowwiseFrom;
    var v, v' := ViewOf(s), ViewOf(s');
    assert Extends(v, v');
    GraphExtends(ex, v, v', s.mem.graph);
    GraphExtends(ex, v, v', s.disk.graph);
    TrackingMixes(ex, v, v', LiveKeys(s), LiveKeys(s'), s.mem.tracking, s.disk.tracking, s'.mem.tracking);
    TrackingMixes(ex, v, v', LiveKeys(s), LiveKeys(s'), s.mem.tracking, s.disk.tracking, s'.disk.tracking);
  }

  /** With memory untouched, the operation in progress does not notice what becomes durable. */
  lemma MixKeepsOp(ex: Chunk -> Extraction, s: State, s': State)
    requires OpOk(ex, s) && Mixed(s, s') && s'.mem == s.mem && s'.op == s.op
    ensures OpOk(ex, s')
  {
    hide Clean, CleanKg;
    assert Extends(ViewOf(s), ViewOf(s'));
    if s.op.Insert? {
      assert MergeComplete(ex, s.mem, Batch(s)) && MergeComplete(ex, s.disk, Batch(s)) ==>
        MergeComplete(ex, s'.disk, Batch(s));
    }
    if s.op.Roll? && s.op.stage != RowDropped {
      var staged := Batch(s);
      if CleanKg(s, staged) { CleanKgMixes(s, s', staged); }
      if Clean(s, staged) { CleanMixes(s, s', staged); }
    }
  }

  lemma MixKeeps(ex: Chunk -> Extraction, s: State, s': State)
    requires Inv(ex, s) && Mixed(s, s')
    requires s'.op == Idle || (s'.op == s.op && s'.mem == s.mem)
    ensures Inv(ex, s')
  {
    MixKeepsStores(ex, s, s');
    MemRowsMix(s, s');
    if s'.op != Idle { MixKeepsOp(ex, s, s'); }
    hide StoresOk, MemRowsOk, DoneOk, RowsOk, Mixed, InsertOk, RollOk;
  }

  // ---- doc_status: deletes are deferred, so memory may lack rows the disk still has ----

  /** Chunks staged by a row that memory has already dropped back nothing that is still cited. */
  lemma ForgottenBacksNothing(ex: Chunk -> Extraction, s: State, p: Provenance, k: Key, c: Chunk)
    requires MemRowsOk(s) && k in LiveKeys(s) && Cites(p, k, c)
    requires p == s.mem.graph || p == s.disk.graph || p == s.mem.tracking || p == s.disk.tracking
    requires Backed(ex, ViewOf(s), k, c)
    ensures Backed(ex, ViewOf(s).(rows := s.mem.rows), k, c)
  {
    assert Cites(s.done.graph, k, c) || c in StagedBy(s.disk.rows, c.doc);
  }

  lemma ForgetKeepsGraph(ex: Chunk -> Extraction, s: State, g: Provenance)
    requires GraphOk(ex, ViewOf(s), g) && MemRowsOk(s)
    requires g == s.mem.graph || g == s.disk.graph
    ensures GraphOk(ex, ViewOf(s).(rows := s.mem.rows), g)
  {
    var v := ViewOf(s).(rows := s.mem.rows);
    forall k, c | Cites(g, k, c) ensures Backed(ex, v, k, c) {
      ForgottenBacksNothing(ex, s, g, k, c);
    }
    hide MemRowsOk, Backed;
  }

  lemma ForgetKeepsTracking(ex: Chunk -> Extraction, s: State, t: Provenance)
    requires TrackingOk(ex, ViewOf(s), LiveKeys(s), t) && MemRowsOk(s)
    requires t == s.mem.tracking || t == s.disk.tracking
    ensures TrackingOk(ex, ViewOf(s).(rows := s.mem.rows), LiveKeys(s), t)
  {
    var v := ViewOf(s).(rows := s.mem.rows);
    forall k, c | k in LiveKeys(s) && Cites(t, k, c) ensures Backed(ex, v, k, c) {
      ForgottenBacksNothing(ex, s, t, k, c);
    }
    hide MemRowsOk, Backed;
  }

  lemma ForgetKeepsStores(ex: Chunk -> Extraction, s: State, st: Stores)
    requires StoresOk(ex, ViewOf(s), LiveKeys(s), st) && MemRowsOk(s)
    requires st == s.mem || st == s.disk
    ensures StoresOk(ex, ViewOf(s).(rows := s.mem.rows), LiveKeys(s), st)
  {
    hide GraphOk, TrackingOk, CleanKg;
    ForgetKeepsGraph(ex, s, st.graph);
    ForgetKeepsTracking(ex, s, st.tracking);
  }

  lemma ForgetKeepsOp(ex: Chunk -> Extraction, s: State, s': State)
    requires OpOk(ex, s) && MemRowsOk(s) && s' == s.(disk := s.disk.(rows := s.mem.rows))
    ensures OpOk(ex, s')
  {
    var v, v' := ViewOf(s), ViewOf(s');
    assert forall k, c :: Backed(ex, v, k, c) ==> Backed(ex, v', k, c) by { hide CleanKg; }
    hide Backed, MemRowsOk;
    assert forall k, b :: AllBacked(ex, v, k, b) ==> AllBacked(ex, v', k, b);
  }

  lemma ForgetKeepsRows(ex: Chunk -> Extraction, s: State)
    requires RowsOk(ex, s.done, s.disk.rows) && MemRowsOk(s)
    ensures RowsOk(ex, s.done, s.mem.rows)
  {
    forall d | d in s.done.rows ensures d in s.mem.rows {
      assert JournalOk(ex, s.done, d, s.disk.rows[d]);
    }
  }

  lemma SyncRowsKeeps(ex: Chunk -> Extraction, s: State, s': State)
    requires Inv(ex, s) && s' == s.(disk := s.disk.(rows := s.mem.rows))
    ensures Inv(ex, s')
  {
    hide GraphOk, TrackingOk, TextOk, AnchorsOk, BodiesOk, OpOk, Clean, DoneOk, RowsOk;
    ForgetKeepsStores(ex, s, s.mem);
    ForgetKeepsStores(ex, s, s.disk);
    ForgetKeepsOp(ex, s, s');
    assert ViewOf(s') == ViewOf(s).(rows := s.mem.rows);
    ForgetKeepsRows(ex, s);
  }

  lemma IdleKeeps(ex: Chunk -> Extraction, s: State)
    requires Inv(ex, s)
    ensures Inv(ex, s.(op := Idle))
  {
    hide StoresOk, DoneOk, RowsOk, MemRowsOk, InsertOk, RollOk;
    assert ViewOf(s.(op := Idle)) == ViewOf(s) && LiveKeys(s.(op := Idle)) == LiveKeys(s);
    IdleRowsOk(s);
  }

  lemma IdleRowsOk(s: State)
    requires MemRowsOk(s)
    ensures MemRowsOk(s.(op := Idle))
  {
  }

  lemma DiscardRowsKeeps(ex: Chunk -> Extraction, s: State, s': State)
    requires s.op.Idle? && s' == s.(mem := s.mem.(rows := s.disk.rows))
    requires Inv(ex, s)
    ensures Inv(ex, s')
  {
    hide GraphOk, TrackingOk, TextOk, AnchorsOk, BodiesOk, DoneOk, RowsOk;
  }

  lemma CrashKeeps(ex: Chunk -> Extraction, s: State)
    requires Inv(ex, s)
    ensures Inv(ex, CrashOf(s))
  {
    hide Inv;
    var s0 := s.(op := Idle);
    var s1 := s0.(mem := s0.mem.(rows := s0.disk.rows));
    IdleKeeps(ex, s);
    DiscardRowsKeeps(ex, s0, s1);
    MixKeeps(ex, s1, CrashOf(s));
  }
}
