/** The steps of _rollback_one_custom_chunk_patch, and of the purge it runs, keep the safety invariant. */
module RollSteps {
  import opened Kg
  import opened Options
  import opened Protocol
  import opened Safety
  import opened InsertSteps

  /** What is committed is never among the staged chunks of a journal. */
  lemma CommittedNotStaged(ex: Chunk -> Extraction, s: State, d: Doc, c: Chunk)
    requires DoneOk(ex, s.done) && RowsOk(ex, s.done, s.disk.rows)
    requires c in StagedBy(s.disk.rows, d)
    ensures c !in s.done.text && forall k :: !Cites(s.done.graph, k, c)
    ensures d in s.done.rows ==> c !in s.done.rows[d].chunks
  {
    hide Contributed, CandidatesOf;
    assert JournalOk(ex, s.done, d, s.disk.rows[d]);
    assert forall e :: e in s.done.rows ==> RowTextOk(ex, s.done, e, s.done.rows[e].chunks);
  }

  /** In memory, an object's provenance before the operation is what a purge reads, minus the staged chunks. */
  lemma ExistingHoldsCommitted(ex: Chunk -> Extraction, s: State, k: Key)
    requires GraphOk(ex, ViewOf(s), s.mem.graph) && TrackingOk(ex, ViewOf(s), LiveKeys(s), s.mem.tracking)
    requires k in s.mem.graph
    ensures Sources(s.done.graph, k) <= Existing(s.mem.graph, s.mem.tracking, k)
    ensures AllBacked(ex, ViewOf(s), k, Existing(s.mem.graph, s.mem.tracking, k))
  {
    hide Backed, Contributed;
  }

  /** An object whose every source is staged has no committed source. */
  lemma StagedOnlyIsUncommitted(ex: Chunk -> Extraction, s: State, d: Doc, k: Key)
    requires k in s.mem.graph && Existing(s.mem.graph, s.mem.tracking, k) <= StagedBy(s.disk.rows, d)
    requires Inv(ex, s)
    ensures k !in s.done.graph
  {
    hide Inv, RowTextOk, RowsOk, MemRowsOk, AllBacked;
    GraphPart(ex, s); TrackingPart(ex, s); RowsPart(ex, s);
    ExistingHoldsCommitted(ex, s, k);
    forall c | c in StagedBy(s.disk.rows, d) { CommittedNotStaged(ex, s, d, c); }
    hide GraphOk, TrackingOk, StagedBy;
    assert k in s.done.graph ==> exists c :: c in s.done.graph[k] && Cites(s.done.graph, k, c);
  }

  /** What a rebuild keeps of an object: legitimate sources, none staged, every committed one among them. */
  lemma RemainingSources(ex: Chunk -> Extraction, s: State, d: Doc, k: Key)
    requires k in s.mem.graph
    requires Inv(ex, s)
    ensures
      var staged := StagedBy(s.disk.rows, d);
      var remaining := Existing(s.mem.graph, s.mem.tracking, k) - staged;
      AllBacked(ex, ViewOf(s), k, remaining) && remaining !! staged && Sources(s.done.graph, k) <= remaining
  {
    hide Inv, Backed, RowsOk, MemRowsOk, DoneOk, Existing;
    GraphPart(ex, s); TrackingPart(ex, s); RowsPart(ex, s);
    ExistingHoldsCommitted(ex, s, k);
    hide GraphOk, TrackingOk;
    forall c | c in StagedBy(s.disk.rows, d) { CommittedNotStaged(ex, s, d, c); }
    hide StagedBy;
    assert forall c :: c in Sources(s.done.graph, k) ==> Cites(s.done.graph, k, c);
  }

  /** The classification splits the candidates in the graph: what no committed chunk supports is dropped,
      the rest is rebuilt from legitimate sources that include every committed one. */
  lemma PlanIsOk(ex: Chunk -> Extraction, s: State, d: Doc)
    requires HasJournal(s.mem.rows, d)
    requires Inv(ex, s)
    ensures
      var j := s.mem.rows[d].journal.value;
      var staged := Elems(j.chunks);
      PlanOk(ex, s, staged, j.cands, Classify(s.mem.graph, s.mem.tracking, staged, j.cands, Rollback))
  {
    hide Inv, AllBacked, Existing;
    var j := s.mem.rows[d].journal.value;
    var staged := Elems(j.chunks);
    assert StagedBy(s.disk.rows, d) == staged by { RowsPart(ex, s); hide DoneOk, RowsOk, CleanKg; }
    hide StagedBy;
    var p := Classify(s.mem.graph, s.mem.tracking, staged, j.cands, Rollback);
    forall k | k in p.drop ensures k !in s.done.graph { StagedOnlyIsUncommitted(ex, s, d, k); }
    forall k | k in s.mem.graph { RemainingSources(ex, s, d, k); }
    forall k | k in p.rebuild ensures p.rebuild[k] != {} {
      var c :| c in Existing(s.mem.graph, s.mem.tracking, k) && c !in staged;
      assert c in p.rebuild[k];
    }
  }

  lemma StartRollbackKeeps(ex: Chunk -> Extraction, s: State, d: Doc, s': State)
    requires s.op.Idle? && HasJournal(s.mem.rows, d)
    requires
      var j := s.mem.rows[d].journal.value;
      s' == s.(op := Roll(d, Classify(s.mem.graph, s.mem.tracking, Elems(j.chunks), j.cands, Rollback), Cutting))
    requires Inv(ex, s)
    ensures Inv(ex, s')
  {
    hide Inv, Classify, AllBacked;
    PlanIsOk(ex, s, d);
    PhaseKeeps(ex, s, s');
  }

  // ---- Tracking writes ----

  lemma PlannedValue(ex: Chunk -> Extraction, s: State, k: Key)
    requires Inv(ex, s) && s.op.Roll? && s.op.stage != RowDropped && k in s.op.plan.rebuild
    ensures AllBacked(ex, ViewOf(s), k, s.op.plan.rebuild[k])
    ensures Sources(s.done.graph, k) <= s.op.plan.rebuild[k] && s.op.plan.rebuild[k] != {}
  {
    hide StoresOk, DoneOk, RowsOk, MemRowsOk, CleanKg, Clean, AllBacked;
  }

  lemma RepointKeepsOp(ex: Chunk -> Extraction, s: State, k: Key, s': State)
    requires OpOk(ex, s) && (Rolling(s, Cutting) || Rolling(s, Rebuilding)) && k in s.op.plan.rebuild
    requires s' == s.(mem := s.mem.(tracking := s.mem.tracking[k := s.op.plan.rebuild[k]]))
    ensures OpOk(ex, s')
  {
    hide AllBacked;
  }

  lemma RepointKeeps(ex: Chunk -> Extraction, s: State, k: Key, s': State)
    requires Inv(ex, s) && (Rolling(s, Cutting) || Rolling(s, Rebuilding)) && k in s.op.plan.rebuild
    requires s' == s.(mem := s.mem.(tracking := s.mem.tracking[k := s.op.plan.rebuild[k]]))
    ensures Inv(ex, s')
  {
    hide MemRowsOk, DoneOk, RowsOk, AllBacked, GraphOk, TrackingOk, TextOk, AnchorsOk, BodiesOk, OpOk;
    PlannedValue(ex, s, k);
    BackedValueKeepsMemRows(ex, s, s', k, s.op.plan.rebuild[k]);
    TrackingWriteKeeps(ex, s, s', k, s.op.plan.rebuild[k]);
    RepointKeepsOp(ex, s, k, s');
  }

  /** Fewer tracking rows of objects and fewer live objects: nothing new to justify. */
  lemma TrackingShrinks(ex: Chunk -> Extraction, v: View, live: set<Key>, live': set<Key>, t: Provenance,
                        t': Provenance)
    requires TrackingOk(ex, v, live, t) && live' <= live
    requires forall k :: k in t' ==> k in t && t'[k] == t[k]
    ensures TrackingOk(ex, v, live', t')
  {
    hide Backed, Contributed;
  }

  /** Dropping graph objects or tracking rows in memory cannot make a chunk cited. */
  lemma ShrinkKeepsMemRows(s: State, s': State)
    requires MemRowsOk(s)
    requires s' == s.(mem := s.mem.(graph := s'.mem.graph, tracking := s'.mem.tracking))
    requires forall k :: k in s'.mem.graph ==> k in s.mem.graph && s'.mem.graph[k] == s.mem.graph[k]
    requires forall k :: k in s'.mem.tracking ==> k in s.mem.tracking && s'.mem.tracking[k] == s.mem.tracking[k]
    ensures MemRowsOk(s')
  {
    hide StagedBy;
  }

  lemma CutKeepsOp(ex: Chunk -> Extraction, s: State, s': State)
    requires OpOk(ex, s) && Rolling(s, Cutting)
    requires s' == s.(mem := s.mem.(graph := s'.mem.graph, tracking := s'.mem.tracking))
    requires forall k :: k in s'.mem.graph ==> k in s.mem.graph && s'.mem.graph[k] == s.mem.graph[k]
    ensures OpOk(ex, s')
  {
    hide AllBacked;
  }

  lemma CutKeepsGraph(ex: Chunk -> Extraction, v: View, g: Provenance, g': Provenance)
    requires GraphOk(ex, v, g) && EndpointsPresent(g')
    requires forall k :: k in g' ==> k in g && g'[k] == g[k]
    requires forall k :: k in v.done.graph ==> k in g'
    ensures GraphOk(ex, v, g')
  {
    hide Backed;
  }

  /** The Cutting stage removes objects that no committed chunk supports. */
  lemma CutKeeps(ex: Chunk -> Extraction, s: State, s': State)
    requires Rolling(s, Cutting)
    requires s' == s.(mem := s.mem.(graph := s'.mem.graph, tracking := s'.mem.tracking))
    requires forall k :: k in s'.mem.graph ==> k in s.mem.graph && s'.mem.graph[k] == s.mem.graph[k]
    requires forall k :: k in s.done.graph ==> k in s'.mem.graph
    requires EndpointsPresent(s'.mem.graph)
    requires forall k :: k in s'.mem.tracking ==> k in s.mem.tracking && s'.mem.tracking[k] == s.mem.tracking[k]
    requires Inv(ex, s)
    ensures Inv(ex, s')
  {
    hide Inv, MemRowsOk, DoneOk, RowsOk, GraphOk, TrackingOk, TextOk, AnchorsOk, BodiesOk, OpOk;
    GraphPart(ex, s); TrackingPart(ex, s); SetsPart(ex, s); RowsPart(ex, s); OpPart(ex, s);
    CutKeepsOp(ex, s, s');
    CutKeepsGraph(ex, ViewOf(s), s.mem.graph, s'.mem.graph);
    ShrinkKeepsMemRows(s, s');
    TrackingShrinks(ex, ViewOf(s), LiveKeys(s), LiveKeys(s'), s.mem.tracking, s'.mem.tracking);
    TrackingShrinks(ex, ViewOf(s), LiveKeys(s), LiveKeys(s'), s.disk.tracking, s.disk.tracking);
    InvFromParts(ex, s');
  }

  lemma DroppedIsUncommitted(ex: Chunk -> Extraction, s: State)
    requires Rolling(s, Cutting)
    requires Inv(ex, s)
    ensures forall k :: k in s.op.plan.drop ==> k !in s.done.graph
    ensures forall k :: k in s.done.graph ==> k in s.mem.graph
    ensures EndpointsPresent(s.mem.graph)
    ensures EndpointsPresent(s.done.graph)
  {
    hide Inv, AllBacked, RowTextOk, RowsOk, MemRowsOk;
    GraphPart(ex, s); RowsPart(ex, s); OpPart(ex, s);
  }

  lemma CutEdgeKeeps(ex: Chunk -> Extraction, s: State, k: Key, s': State)
    requires Rolling(s, Cutting) && k in s.op.plan.drop && k.Rel?
    requires s' == s.(mem := s.mem.(graph := s.mem.graph - {k}))
    requires Inv(ex, s)
    ensures Inv(ex, s')
  {
    hide Inv;
    DroppedIsUncommitted(ex, s);
    CutKeeps(ex, s, s');
  }

  lemma CutNodeKeeps(ex: Chunk -> Extraction, s: State, n: string, s': State)
    requires Rolling(s, Cutting) && Ent(n) in s.op.plan.drop
    requires s' == s.(mem := s.mem.(graph := RemoveNode(s.mem.graph, n)))
    requires Inv(ex, s)
    ensures Inv(ex, s')
  {
    hide Inv;
    DroppedIsUncommitted(ex, s);
    CutKeeps(ex, s, s');
  }

  lemma ForgetKeeps(ex: Chunk -> Extraction, s: State, k: Key, s': State)
    requires Rolling(s, Cutting)
    requires s' == s.(mem := s.mem.(tracking := s.mem.tracking - {k}))
    requires Inv(ex, s)
    ensures Inv(ex, s')
  {
    hide Inv;
    DroppedIsUncommitted(ex, s);
    CutKeeps(ex, s, s');
  }

  lemma EndCutKeeps(ex: Chunk -> Extraction, s: State, s': State)
    requires Rolling(s, Cutting) && CutDone(s.mem, s.op.plan) && s' == s.(op := s.op.(stage := Rebuilding))
    requires Inv(ex, s)
    ensures Inv(ex, s')
  {
    hide Inv, AllBacked;
    OpPart(ex, s);
    PhaseKeeps(ex, s, s');
  }

  lemma RebuildGraphKeepsMemRows(ex: Chunk -> Extraction, s: State, s': State, k: Key, v: set<Chunk>)
    requires Inv(ex, s) && AllBacked(ex, ViewOf(s), k, v) && k in s.mem.graph
    requires s' == s.(mem := s.mem.(graph := s.mem.graph[k := v]))
    ensures MemRowsOk(s')
  {
    hide StoresOk, DoneOk, RowsOk, OpOk, Backed;
    forall d, c | d in s.disk.rows && d !in s.mem.rows && c in v ensures c !in StagedBy(s.disk.rows, d) {
      BackedIsNotForgotten(ex, s, d, k, c);
    }
    hide StagedBy, AllBacked;
    assert LiveKeys(s') == LiveKeys(s);
  }

  lemma RebuildGraphKeepsOp(ex: Chunk -> Extraction, s: State, k: Key, s': State)
    requires OpOk(ex, s) && Rolling(s, Rebuilding) && k in s.op.plan.rebuild && k in s.mem.graph
    requires s' == s.(mem := s.mem.(graph := s.mem.graph[k := s.op.plan.rebuild[k]]))
    ensures OpOk(ex, s')
  {
    hide AllBacked;
  }

  lemma RebuildGraphKeeps(ex: Chunk -> Extraction, s: State, k: Key, s': State)
    requires Rolling(s, Rebuilding) && k in s.op.plan.rebuild && k in s.mem.graph
    requires s' == s.(mem := s.mem.(graph := s.mem.graph[k := s.op.plan.rebuild[k]]))
    requires Inv(ex, s)
    ensures Inv(ex, s')
  {
    hide Inv, MemRowsOk, DoneOk, RowsOk, AllBacked, TrackingOk, TextOk, AnchorsOk, BodiesOk, OpOk;
    var v := s.op.plan.rebuild[k];
    GraphPart(ex, s); TrackingPart(ex, s); SetsPart(ex, s); RowsPart(ex, s); OpPart(ex, s);
    PlannedValue(ex, s, k);
    RebuildGraphKeepsOp(ex, s, k, s');
    RebuildGraphKeepsMemRows(ex, s, s', k, v);
    GraphWriteKeeps(ex, s, s', k, v);
    assert LiveKeys(s') == LiveKeys(s);
    InvFromParts(ex, s');
  }

  // ---- After the rebuild ----

  /** Once the plan is carried out and flushed, the staged chunks are cited nowhere: a citation would have to be
      journaled, hence of a candidate, hence dropped or rebuilt without it. */
  lemma RebuiltCitesNone(ex: Chunk -> Extraction, s: State, k: Key, c: Chunk)
    requires Rolling(s, Rebuilding) && Flushed(s) && RebuildDone(s.mem, s.op.plan)
    requires c in Batch(s) && k in s.mem.graph
    requires Inv(ex, s)
    ensures !Cites(s.mem.graph, k, c) && !Cites(s.mem.tracking, k, c)
  {
    hide Inv, Contributed, CandidatesOf, Clean, CleanKg, DoneOk, RowsOk;
    RowsPart(ex, s); GraphPart(ex, s); TrackingPart(ex, s); OpPart(ex, s);
    StagedByOneDoc(ex, s, s.op.doc, s.op.doc + "-");
    CommittedNotStaged(ex, s, s.op.doc, c);
    hide MemRowsOk;
    assert Cites(s.mem.graph, k, c) || Cites(s.mem.tracking, k, c) ==> Backed(ex, ViewOf(s), k, c);
  }

  lemma EndRebuildKeeps(ex: Chunk -> Extraction, s: State, s': State)
    requires Rolling(s, Rebuilding) && Flushed(s) && RebuildDone(s.mem, s.op.plan)
    requires s' == s.(op := s.op.(stage := Rebuilt))
    requires Inv(ex, s)
    ensures Inv(ex, s')
  {
    hide Inv, AllBacked;
    OpPart(ex, s);
    assert CleanKg(s', Batch(s')) by {
      forall k, c | c in Batch(s) && k in s.mem.graph { RebuiltCitesNone(ex, s, k, c); }
      assert LiveKeys(s) == s.mem.graph.Keys;
    }
    hide CleanKg;
    PhaseKeeps(ex, s, s');
  }

  /** Legitimate citations of other chunks survive the deletion of the staged text. */
  lemma DropTextBacks(ex: Chunk -> Extraction, s: State, s': State, staged: set<Chunk>, k: Key, c: Chunk)
    requires Backed(ex, ViewOf(s), k, c) && c !in staged && s' == s.(mem := s.mem.(text := s.mem.text - staged))
    ensures Backed(ex, ViewOf(s'), k, c)
  {
  }

  lemma DropTextKeepsKg(ex: Chunk -> Extraction, s: State, s': State, staged: set<Chunk>, st: Stores)
    requires GraphOk(ex, ViewOf(s), st.graph) && TrackingOk(ex, ViewOf(s), LiveKeys(s), st.tracking)
    requires CleanKg(s, staged) && s' == s.(mem := s.mem.(text := s.mem.text - staged)) && (st == s.mem || st == s.disk)
    ensures GraphOk(ex, ViewOf(s'), st.graph) && TrackingOk(ex, ViewOf(s'), LiveKeys(s'), st.tracking)
  {
    hide Backed, Contributed;
    forall k, c | Backed(ex, ViewOf(s), k, c) && c !in staged { DropTextBacks(ex, s, s', staged, k, c); }
    assert forall k, c :: k in LiveKeys(s) && (Cites(st.graph, k, c) || Cites(st.tracking, k, c)) ==> c !in staged;
  }

  lemma DropTextKeepsOp(ex: Chunk -> Extraction, s: State, s': State)
    requires OpOk(ex, s) && Rolling(s, Rebuilt) && s' == s.(mem := s.mem.(text := s.mem.text - Batch(s)))
    ensures OpOk(ex, s')
  {
    hide Backed;
    forall k, c | Backed(ex, ViewOf(s), k, c) && c !in Batch(s) { DropTextBacks(ex, s, s', Batch(s), k, c); }
  }

  lemma DropTextKeepsSets(ex: Chunk -> Extraction, s: State, s': State)
    requires Rolling(s, Rebuilt) && s' == s.(mem := s.mem.(text := s.mem.text - Batch(s)))
    requires Inv(ex, s)
    ensures TextOk(ViewOf(s'), s'.mem.text) && TextOk(ViewOf(s'), s'.disk.text) && MemRowsOk(s')
  {
    hide Inv, DoneOk, RowsOk, CleanKg, AnchorsOk, BodiesOk;
    RowsPart(ex, s); SetsPart(ex, s);
    forall c | c in Batch(s) ensures c !in s.done.text { CommittedNotStaged(ex, s, s.op.doc, c); }
    assert forall staged :: CleanKg(s, staged) ==> CleanKg(s', staged) by { StageTextKeepsClean(s, s'); }
  }

  lemma DropTextKeeps(ex: Chunk -> Extraction, s: State, s': State)
    requires Rolling(s, Rebuilt) && s' == s.(mem := s.mem.(text := s.mem.text - Batch(s)))
    requires Inv(ex, s)
    ensures Inv(ex, s')
  {
    hide Inv, MemRowsOk, DoneOk, RowsOk, GraphOk, TrackingOk, TextOk, CleanKg, PlanOk;
    GraphPart(ex, s); TrackingPart(ex, s); SetsPart(ex, s); RowsPart(ex, s); OpPart(ex, s);
    assert CleanKg(s, Batch(s));
    hide OpOk;
    DropTextKeepsOp(ex, s, s');
    DropTextKeepsKg(ex, s, s', Batch(s), s.mem);
    DropTextKeepsKg(ex, s, s', Batch(s), s.disk);
    DropTextKeepsSets(ex, s, s');
    InvFromParts(ex, s');
  }

  lemma FinishDropKeeps(ex: Chunk -> Extraction, s: State, s': State)
    requires Rolling(s, Rebuilt) && Batch(s) !! s.mem.text && s.disk.text == s.mem.text
    requires s' == s.(op := s.op.(stage := Emptied))
    requires Inv(ex, s)
    ensures Inv(ex, s')
  {
    hide Inv, AllBacked;
    OpPart(ex, s);
    PhaseKeeps(ex, s, s');
  }

  // ---- Create mode: the document disappears ----

  lemma DropAnchorsKeeps(ex: Chunk -> Extraction, s: State, ents: bool, s': State)
    requires Rolling(s, Emptied) && Jn(s).mode == Create
    requires s' == s.(mem := s.mem.(anchors := WithoutRow(s.mem.anchors, s.op.doc, ents)))
    requires Inv(ex, s)
    ensures Inv(ex, s')
  {
    hide Inv, AllBacked, RowTextOk, CandidatesOf, RowsOk, TextOk, BodiesOk, NoneCited;
    RowsPart(ex, s); SetsPart(ex, s); OpPart(ex, s);
    JournalFacts(ex, s, s.op.doc);
    assert AnchorsOk(ViewOf(s), s'.mem.anchors);
    assert OpOk(ex, s');
    hide OpOk, DoneOk, AnchorsOk;
    SideStoresKeep(ex, s, s');
  }

  lemma FinishAnchorsKeeps(ex: Chunk -> Extraction, s: State, s': State)
    requires Rolling(s, Emptied) && Jn(s).mode == Create && s.disk.anchors == s.mem.anchors
    requires forall k :: (s.op.doc, k) !in s.mem.anchors
    requires s' == s.(op := s.op.(stage := Unanchored))
    requires Inv(ex, s)
    ensures Inv(ex, s')
  {
    hide Inv, AllBacked;
    OpPart(ex, s);
    PhaseKeeps(ex, s, s');
  }

  lemma DropBodyKeeps(ex: Chunk -> Extraction, s: State, s': State)
    requires Rolling(s, Unanchored) && s' == s.(mem := s.mem.(bodies := s.mem.bodies - {s.op.doc}))
    requires Inv(ex, s)
    ensures Inv(ex, s')
  {
    hide Inv, AllBacked, RowTextOk, CandidatesOf, DoneOk, RowsOk, TextOk, AnchorsOk, NoneCited;
    RowsPart(ex, s); SetsPart(ex, s); OpPart(ex, s);
    JournalFacts(ex, s, s.op.doc);
    assert OpOk(ex, s');
    assert BodiesOk(ViewOf(s), s'.mem.bodies);
    hide OpOk, BodiesOk;
    SideStoresKeep(ex, s, s');
  }

  lemma DropRowKeeps(ex: Chunk -> Extraction, s: State, s': State)
    requires Rolling(s, Unanchored)
    requires s' == s.(mem := s.mem.(rows := s.mem.rows - {s.op.doc}), op := s.op.(stage := RowDropped))
    requires Inv(ex, s)
    ensures Inv(ex, s')
  {
    hide Inv, PlanOk, GraphOk, TrackingOk, TextOk, AnchorsOk, BodiesOk, DoneOk, RowsOk, NoneCited;
    GraphPart(ex, s); TrackingPart(ex, s); SetsPart(ex, s); RowsPart(ex, s); OpPart(ex, s);
    assert MemRowsOk(s') && OpOk(ex, s');
    hide MemRowsOk, OpOk;
    InvFromParts(ex, s');
  }

  // ---- Patch mode: the base document comes back ----

  /** A candidate the base document contributes to keeps its anchor row. */
  lemma ContributorIsOwner(ex: Chunk -> Extraction, s: State, k: Key, c: Chunk)
    requires Rolling(s, Emptied) && Jn(s).mode == Patch
    requires Inv(ex, s)
    requires Cites(s.done.graph, k, c) && c.doc == s.op.doc && k in Jn(s).cands
    ensures Owned(s, k)
  {
    hide Inv, AllBacked, RowTextOk, CandidatesOf, RowsOk, NoneCited;
    RowsPart(ex, s); GraphPart(ex, s); OpPart(ex, s);
    JournalFacts(ex, s, s.op.doc);
    var d := s.op.doc;
    forall b | b in Batch(s) { CommittedNotStaged(ex, s, d, b); }
    assert c in s.mem.rows[s.op.doc].chunks;
    assert k in s.mem.graph && k in s.op.plan.rebuild;
  }

  /** A candidate that the document owns has a committed source of the document. */
  lemma OwnerIsContributor(ex: Chunk -> Extraction, s: State, k: Key)
    requires Rolling(s, Emptied) && Jn(s).mode == Patch && Owned(s, k)
    requires Inv(ex, s)
    ensures Owns(s.done, s.op.doc, k)
  {
    hide Inv, AllBacked, CandidatesOf, RowsOk, NoneCited, Contributed;
    RowsPart(ex, s); TrackingPart(ex, s);
    JournalFacts(ex, s, s.op.doc);
    var c :| c in s.mem.rows[s.op.doc].chunks && c !in Batch(s) && c in Sources(s.mem.tracking, k);
    assert Cites(s.mem.tracking, k, c);
    assert RowTextOk(ex, s.done, s.op.doc, s.done.rows[s.op.doc].chunks);
    assert Cites(s.done.graph, k, c);
  }

  lemma PruneKeeps(ex: Chunk -> Extraction, s: State, ents: bool, s': State)
    requires Rolling(s, Emptied) && Jn(s).mode == Patch
    requires s' == s.(mem := s.mem.(anchors := s.mem.anchors - Pruned(s, ents)))
    requires Inv(ex, s)
    ensures Inv(ex, s')
  {
    hide Inv, AllBacked, RowTextOk, CandidatesOf, RowsOk, DoneOk, TextOk, BodiesOk, NoneCited, Owned;
    RowsPart(ex, s); SetsPart(ex, s); OpPart(ex, s);
    forall k, c | Cites(s.done.graph, k, c) && c.doc == s.op.doc && k in Jn(s).cands {
      ContributorIsOwner(ex, s, k, c);
    }
    assert AnchorsOk(ViewOf(s), s'.mem.anchors);
    assert OpOk(ex, s');
    hide OpOk, AnchorsOk;
    SideStoresKeep(ex, s, s');
  }

  /** Clearing the journal of d, with the committed row put back. */
  ghost predicate RestoreStep(s: State, s': State, d: Doc) {
    && d in s.done.rows && s' == WithRow(s, d, s.done.rows[d]).(op := Idle)
    && HasJournal(s.mem.rows, d) && d in s.disk.rows && s.disk.rows[d] == s.mem.rows[d]
  }

  lemma RestoreBacks(ex: Chunk -> Extraction, s: State, s': State, d: Doc, k: Key, c: Chunk)
    requires RestoreStep(s, s', d) && Backed(ex, ViewOf(s), k, c) && c !in StagedBy(s.disk.rows, d)
    requires RowsOk(ex, s.done, s.disk.rows)
    ensures Backed(ex, ViewOf(s'), k, c)
  {
    hide Contributed, CandidatesOf, RowTextOk;
    assert Pending(ex, s.disk.rows, k, c) && c.doc == d ==> c in StagedBy(s.disk.rows, d);
  }

  lemma RestoreKeepsKg(ex: Chunk -> Extraction, s: State, s': State, d: Doc, st: Stores)
    requires RestoreStep(s, s', d) && RowsOk(ex, s.done, s.disk.rows) && CleanKg(s, StagedBy(s.disk.rows, d))
    requires GraphOk(ex, ViewOf(s), st.graph) && TrackingOk(ex, ViewOf(s), LiveKeys(s), st.tracking)
    requires st == s.mem || st == s.disk
    ensures GraphOk(ex, ViewOf(s'), st.graph) && TrackingOk(ex, ViewOf(s'), LiveKeys(s'), st.tracking)
  {
    hide Backed, Contributed, RowsOk, StagedBy;
    var staged := StagedBy(s.disk.rows, d);
    forall k, c | Backed(ex, ViewOf(s), k, c) && c !in staged { RestoreBacks(ex, s, s', d, k, c); }
    assert forall k, c :: k in LiveKeys(s) && (Cites(st.graph, k, c) || Cites(st.tracking, k, c)) ==> c !in staged;
  }

  lemma RestoreKeepsSets(ex: Chunk -> Extraction, s: State, s': State, d: Doc, st: Stores)
    requires RestoreStep(s, s', d) && StagedBy(s.disk.rows, d) !! st.text
    requires s.done.rows[d].journal.None? && s.mem.rows[d].journal.value.mode == Patch
    requires RowsOk(ex, s.done, s.disk.rows)
    requires forall k :: k in s.mem.rows[d].journal.value.cands && (d, k) in st.anchors ==> Owns(s.done, d, k)
    requires TextOk(ViewOf(s), st.text) && AnchorsOk(ViewOf(s), st.anchors) && BodiesOk(ViewOf(s), st.bodies)
    ensures TextOk(ViewOf(s'), st.text) && AnchorsOk(ViewOf(s'), st.anchors) && BodiesOk(ViewOf(s'), st.bodies)
  {
    hide JournalOk;
    assert TextOk(ViewOf(s'), st.text) by { hide AnchorsOk, BodiesOk; }
    assert AnchorsOk(ViewOf(s'), st.anchors) by { hide TextOk, BodiesOk; }
    hide TextOk, AnchorsOk, RowsOk;
  }

  lemma RestoreKeepsRows(ex: Chunk -> Extraction, s: State, s': State, d: Doc)
    requires RestoreStep(s, s', d) && RowsOk(ex, s.done, s.disk.rows) && s.done.rows[d].journal.None?
    ensures RowsOk(ex, s'.done, s'.disk.rows)
  {
    assert JournalOk(ex, s.done, d, s.done.rows[d]);
    hide JournalOk;
  }

  lemma RestoreKeepsMemRows(s: State, s': State, d: Doc)
    requires RestoreStep(s, s', d) && MemRowsOk(s)
    ensures MemRowsOk(s')
  {
    assert s'.disk.rows == s.disk.rows[d := s.done.rows[d]] && s'.mem.rows == s.mem.rows[d := s.done.rows[d]];
    assert forall e :: e in s'.disk.rows && e !in s'.mem.rows ==> StagedBy(s'.disk.rows, e) == StagedBy(s.disk.rows, e);
    hide StagedBy;
  }

  /** The restored row is the committed one. */
  lemma RestoredRow(ex: Chunk -> Extraction, s: State)
    requires Rolling(s, Emptied) && Jn(s).mode == Patch
    requires Inv(ex, s)
    ensures s.op.doc in s.done.rows
    ensures Row(Processed, Without(s.mem.rows[s.op.doc].chunks, Batch(s)), None) == s.done.rows[s.op.doc]
    ensures s.done.rows[s.op.doc].journal.None?
    ensures s.op.doc in s.disk.rows && s.disk.rows[s.op.doc] == s.mem.rows[s.op.doc]
    ensures Clean(s, Batch(s))
  {
    hide Inv, AllBacked, CandidatesOf, RowTextOk, NoneCited;
    RowsPart(ex, s); OpPart(ex, s);
    JournalFacts(ex, s, s.op.doc);
    var d := s.op.doc;
    forall c | c in Batch(s) { CommittedNotStaged(ex, s, d, c); }
  }

  lemma RestoreKeeps(ex: Chunk -> Extraction, s: State, s': State)
    requires Rolling(s, Emptied) && Jn(s).mode == Patch && s.disk.anchors == s.mem.anchors
    requires forall k :: k in Jn(s).cands && (s.op.doc, k) in s.mem.anchors ==> Owned(s, k)
    requires s' == WithRow(s, s.op.doc, Row(Processed, Without(s.mem.rows[s.op.doc].chunks, Batch(s)),
      None)).(op := Idle)
    requires Inv(ex, s)
    ensures Inv(ex, s')
  {
    hide Inv, DoneOk, RowsOk, MemRowsOk, GraphOk, TrackingOk, TextOk, AnchorsOk, BodiesOk, OpOk, CleanKg;
    var d := s.op.doc;
    RestoredRow(ex, s);
    forall k | k in Jn(s).cands && (d, k) in s.mem.anchors ensures Owns(s.done, d, k) {
      OwnerIsContributor(ex, s, k);
    }
    GraphPart(ex, s); TrackingPart(ex, s); SetsPart(ex, s); RowsPart(ex, s);
    RestoreKeepsKg(ex, s, s', d, s.mem);
    RestoreKeepsKg(ex, s, s', d, s.disk);
    RestoreKeepsSets(ex, s, s', d, s.mem);
    RestoreKeepsSets(ex, s, s', d, s.disk);
    RestoreKeepsRows(ex, s, s', d);
    RestoreKeepsMemRows(s, s', d);
    assert LiveKeys(s') == LiveKeys(s);
    assert OpOk(ex, s') by { IdleIsOk(ex, s'); }
    hide RestoreStep;
    InvFromParts(ex, s');
  }

  lemma IdleIsOk(ex: Chunk -> Extraction, s: State)
    requires s.op.Idle?
    ensures OpOk(ex, s)
  {
  }
}
