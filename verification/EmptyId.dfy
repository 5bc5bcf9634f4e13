/** The document with the empty id. A creation under it is accepted like any other, but the merge writes no recovery
anchors ahead for it, so that once it has committed nothing leads from the document to what it contributed. */
module EmptyId {
  import opened Kg
  import opened Options
  import opened Protocol
  import opened Safety
  import opened InsertSteps
  import opened Runs
  import opened Guarantees
  import opened Leak

  // ---- One commit ----

  lemma NewDocumentOwnsNothing(ex: Chunk -> Extraction, s: State, k: Key)
    requires Inserting(s, Ready) && Jn(s).mode == Create
    requires Inv(ex, s)
    ensures !Owns(s.done, s.op.doc, k)
    ensures s.op.doc == "" ==> ("", k) !in s.mem.anchors && ("", k) !in s.disk.anchors
  {
    hide Inv, RowTextOk, CandidatesOf, TextOk, BodiesOk, MemRowsOk, RowsOk;
    RowsPart(ex, s); SetsPart(ex, s);
    JournalFacts(ex, s, s.op.doc);
  }

  lemma ReadyIsAnchored(ex: Chunk -> Extraction, s: State, k: Key)
    requires Inserting(s, Ready) && IsAnchored(s.op.doc, Jn(s).mode) && k in ContributedBy(ex, Batch(s))
    requires Inv(ex, s)
    ensures k in Jn(s).cands && (s.op.doc, k) in s.mem.anchors && (s.op.doc, k) in s.disk.anchors
  {
    hide Inv, MergeComplete, CandidatesOf, ContributedBy;
    OpPart(ex, s);
    CandidatesOfCover(ex, Batch(s));
  }

  /** A creation that commits leaves what it contributes to anchored if and only if its id is not empty or it
      contributes to nothing. */
  lemma CreationIsAnchoredIff(ex: Chunk -> Extraction, s: State, s': State)
    requires Inserting(s, Ready) && Jn(s).mode == Create && s' == NextInsert(ex, s, Commit)
    requires Inv(ex, s)
    ensures
      var d := s.op.doc;
      (forall k :: Owns(s'.done, d, k) ==> (d, k) in s'.mem.anchors && (d, k) in s'.disk.anchors)
      <==> d != "" || ContributedBy(ex, Batch(s)) == {}
  {
    hide Inv, CommitOf, AppendNew, ContributedBy, Owns;
    var d := s.op.doc;
    OwnChunks(ex, s, s.op.doc);
    forall k ensures Owns(s'.done, d, k) <==> k in ContributedBy(ex, Batch(s)) {
      CommitOwns(ex, s.done, d, Jn(s), d, k);
      NewDocumentOwnsNothing(ex, s, k);
    }
    if d != "" {
      forall k | k in ContributedBy(ex, Batch(s)) { ReadyIsAnchored(ex, s, k); }
    } else if k :| k in ContributedBy(ex, Batch(s)) {
      assert Owns(s'.done, d, k);
      NewDocumentOwnsNothing(ex, s, k);
    }
  }

  // ---- Whole runs ----

  ghost predicate Covered(c: Committed) {
    forall k, b :: !LacksAnchor(c, k, b)
  }

  predicate CreatesNameless(rows: map<Doc, Row>) {
    HasJournal(rows, "") && rows[""].journal.value.mode == Create
  }

  /** Everything committed is anchored, and no creation under the empty id is open. */
  ghost predicate Named(s: State) {
    && Covered(s.done) && !CreatesNameless(s.mem.rows) && !CreatesNameless(s.disk.rows)
    && (s.op.Doubt? ==> Covered(s.op.prior) && !CreatesNameless(map[s.op.doc := s.op.row]))
  }

  lemma CommitCovers(ex: Chunk -> Extraction, c: Committed, d: Doc, j: Journal)
    requires Covered(c) && IsAnchored(d, j.mode) && ContributedBy(ex, Elems(j.chunks)) <= j.cands
    requires forall b :: b in j.chunks ==> b.doc == d
    ensures Covered(CommitOf(ex, c, d, j))
  {
    hide AppendNew, AddContributions, Contributed;
    var c', staged := CommitOf(ex, c, d, j), Elems(j.chunks);
    forall k, b | Cites(c'.graph, k, b) ensures (b.doc, k) in c'.anchors {
      CommittedGraph(ex, c.graph, staged, k, b);
      assert !LacksAnchor(c, k, b);
      if b in staged && k in Contributed(ex(b)) { assert k in ContributedBy(ex, staged); }
    }
  }

  lemma CommitStaysNamed(ex: Chunk -> Extraction, s: State, i: InsertStep, s': State)
    requires EnabledInsert(ex, s, i) && s' == NextInsert(ex, s, i) && (i == Commit || i == CommitInDoubt) && Named(s)
    requires Inv(ex, s)
    ensures Named(s')
  {
    hide Inv, CommitOf, AppendNew, Covered, ContributedBy;
    OwnChunks(ex, s, s.op.doc);
    forall k | k in ContributedBy(ex, Batch(s)) ensures k in Jn(s).cands { ReadyIsAnchored(ex, s, k); }
    CommitCovers(ex, s.done, s.op.doc, Jn(s));
  }

  lemma InsertStaysNamed(ex: Chunk -> Extraction, s: State, i: InsertStep, s': State)
    requires EnabledInsert(ex, s, i) && s' == NextInsert(ex, s, i) && Named(s)
    requires i != Commit && i != CommitInDoubt && forall ids :: i != StartCreate("", ids)
    ensures Named(s')
  {
    hide Covered, CommitOf, AppendNew, MergeValue, MergeComplete, CandidatesOf, Fresh, Elems;
  }

  lemma RollStaysNamed(s: State, r: RollStep, s': State)
    requires EnabledRoll(s, r) && s' == NextRoll(s, r) && Named(s)
    ensures Named(s')
  {
    hide Covered, CutDone, RebuildDone, Classify, Pruned, Owned, Without, Elems, RemoveNode;
  }

  lemma StepStaysNamed(ex: Chunk -> Extraction, s: State, e: Event, s': State)
    requires Step(ex, s, e, s') && Named(s) && forall ids :: e != Ins(StartCreate("", ids))
    requires Inv(ex, s)
    ensures Named(s')
  {
    hide Inv, Careful;
    match e
    case Persist(p) => hide Covered, EnabledInsert, EnabledRoll;
    case Rol(r) => RollStaysNamed(s, r, s');
    case Ins(i) =>
      hide EnabledInsert, NextInsert, Named;
      if i == Commit || i == CommitInDoubt { CommitStaysNamed(ex, s, i, s'); } else { InsertStaysNamed(ex, s, i, s'); }
  }

  lemma {:induction false} RunStaysNamed(ex: Chunk -> Extraction, run: seq<State>, events: seq<Event>, i: nat)
    requires |run| == |events| + 1 && IsRun(ex, run, events) && i < |run| && Safe(ex, run[0]) && Named(run[0])
    requires forall ids :: Ins(StartCreate("", ids)) !in events
    ensures Named(run[i])
  {
    hide Inv, Safe, Enabled, Careful, Next, Named;
    if i > 0 {
      RunStaysNamed(ex, run, events, i - 1);
      RunKeepsInv(ex, run, events, i - 1);
      assert Step(ex, run[i - 1], events[i - 1], run[i]);
      StepStaysNamed(ex, run[i - 1], events[i - 1], run[i]);
    }
  }

  /** If everything is anchored at first and nothing is created under the empty id, then at every state of the run every
      citation, in memory and on disk, can be found again. */
  lemma NamedRunsAreRecoverable(ex: Chunk -> Extraction, run: seq<State>, events: seq<Event>, i: nat)
    requires |run| == |events| + 1 && IsRun(ex, run, events) && i < |run| && Settled(ex, run[0]) && Covered(run[0].done)
    requires forall ids :: Ins(StartCreate("", ids)) !in events
    ensures forall k, c :: Cites(run[i].mem.graph, k, c) || Cites(run[i].disk.graph, k, c) ==> Found(run[i], k, c)
  {
    hide Inv, Safe, IsRun, NoDanglingProvenance, Found;
    assert Named(run[0]) by { hide DoneOk; NoCreationIsOpen(ex, run[0]); }
    hide Settled;
    SettledIsSafe(ex, run[0]);
    RunStaysNamed(ex, run, events, i);
    EveryStateIsSafe(ex, run, events, i);
    assert forall k, c :: !LacksAnchor(run[i].done, k, c);
  }

  lemma NoCreationIsOpen(ex: Chunk -> Extraction, s: State)
    requires Settled(ex, s)
    ensures !CreatesNameless(s.mem.rows) && !CreatesNameless(s.disk.rows)
  {
  }

  // ---- A creation under the empty id ----

  /** The creation while it merges: its object has a tracking row, and is in the graph, or not yet. */
  function Merging(c: Chunk, merged: bool, onDisk: bool, at: InsertPhase): State {
    var s := Creating(map[ADA := {c}], "", c, {ADA}, true, Insert("", at));
    var with := s.mem.(graph := if merged then map[ADA := {c}] else map[]);
    s.(mem := with, disk := if onDisk then with else s.disk.(graph := map[], tracking := map[]))
  }

  /** What is stored once it has committed. */
  function Created(c: Chunk): State {
    var row := Row(Processed, [c], None);
    var st := Stores(map[ADA := {c}], map[ADA := {c}], {c}, {}, {""}, map["" := row]);
    State(st, st, Committed(map[ADA := {c}], {c}, {}, {""}, map["" := row]), Idle)
  }

  /** No anchor is needed for the merge to begin. */
  lemma BeginsUnanchored(c: Chunk)
    requires c.Custom? && c.doc == ""
    ensures
      var s := Creating(map[], "", c, {ADA}, true, Insert("", Applying));
      Reaches(MentionsAda, s, [Ins(BeginMerge)], s.(op := Insert("", InsertPhase.Merging)))
  {
    hide Reaches;
    var s := Creating(map[], "", c, {ADA}, true, Insert("", Applying));
    Then(MentionsAda, s, [Ins(BeginMerge)], 0, s, s.(op := Insert("", InsertPhase.Merging)));
  }

  lemma TracksAda(c: Chunk)
    requires c.Custom? && c.doc == ""
    ensures Reaches(MentionsAda, Creating(map[], "", c, {ADA}, true, Insert("", InsertPhase.Merging)),
                    [Ins(MergeTracking(ADA, {c}))], Merging(c, false, false, InsertPhase.Merging))
  {
    hide Reaches;
    var s := Creating(map[], "", c, {ADA}, true, Insert("", InsertPhase.Merging));
    assert Elems([c]) == {c};
    OnlyAda(c);
    hide ContributedBy, NewSources, CandidatesOf, IncidentSources;
    Then(MentionsAda, s, [Ins(MergeTracking(ADA, {c}))], 0, s, Merging(c, false, false, InsertPhase.Merging));
  }

  lemma MergesAda(c: Chunk)
    requires c.Custom? && c.doc == ""
    ensures Reaches(MentionsAda, Merging(c, false, false, InsertPhase.Merging), [Ins(MergeGraph(ADA, {c}))],
                    Merging(c, true, false, InsertPhase.Merging))
  {
    hide Reaches;
    var s := Merging(c, false, false, InsertPhase.Merging);
    assert Elems([c]) == {c};
    OnlyAda(c);
    hide ContributedBy, NewSources, CandidatesOf, IncidentSources;
    Then(MentionsAda, s, [Ins(MergeGraph(ADA, {c}))], 0, s, Merging(c, true, false, InsertPhase.Merging));
  }

  lemma Persists(c: Chunk)
    ensures Reaches(MentionsAda, Merging(c, true, false, InsertPhase.Merging),
                    [Persist(SyncTracking({ADA})), Persist(SyncGraph)], Merging(c, true, true, InsertPhase.Merging))
  {
    hide Reaches;
    var s0, s2 := Merging(c, true, false, InsertPhase.Merging), Merging(c, true, true, InsertPhase.Merging);
    var es := [Persist(SyncTracking({ADA})), Persist(SyncGraph)];
    var s1 := s2.(disk := s2.disk.(graph := map[]));
    Then(MentionsAda, s0, es, 0, s0, s1);
    Then(MentionsAda, s0, es, 1, s1, s2);
  }

  lemma AdaIsComplete(c: Chunk, st: Stores)
    requires st.graph == st.tracking == map[ADA := {c}]
    ensures MergeComplete(MentionsAda, st, {c})
  {
    OnlyAda(c);
    hide Contributed;
  }

  lemma Ends(c: Chunk)
    requires c.Custom? && c.doc == ""
    ensures Reaches(MentionsAda, Merging(c, true, true, InsertPhase.Merging), [Ins(EndMerge), Ins(FinishUnion)],
                    Merging(c, true, true, Ready))
  {
    hide Reaches, MergeComplete;
    var s0, s2 := Merging(c, true, true, InsertPhase.Merging), Merging(c, true, true, Ready);
    var es, s1 := [Ins(EndMerge), Ins(FinishUnion)], Merging(c, true, true, Merged);
    assert Elems([c]) == {c};
    AdaIsComplete(c, s0.mem);
    Then(MentionsAda, s0, es, 0, s0, s1);
    Then(MentionsAda, s0, es, 1, s1, s2);
  }

  lemma CommittedAda(c: Chunk)
    ensures AddContributions(MentionsAda, map[], {c}) == map[ADA := {c}]
  {
    OnlyAda(c);
    hide NewSources, ContributedBy;
    var g := AddContributions(MentionsAda, map[], {c});
    assert g.Keys == {ADA} && g[ADA] == {c};
  }

  lemma CommitsUnanchored(c: Chunk)
    requires c.Custom? && c.doc == ""
    ensures Reaches(MentionsAda, Merging(c, true, true, Ready), [Ins(Commit)], Created(c))
  {
    hide Reaches;
    assert Elems([c]) == {c} && AppendNew([], [c]) == [c];
    CommittedAda(c);
    hide AddContributions;
    Then(MentionsAda, Merging(c, true, true, Ready), [Ins(Commit)], 0, Merging(c, true, true, Ready), Created(c));
  }

  lemma NamelessCreationRuns(c: Chunk)
    requires c.Custom? && c.doc == ""
    ensures Connected(MentionsAda, Bare(map[]), Created(c))
  {
    hide Reaches, Connected, Creating, Merging, Created, Bare;
    Opens(map[], "", c); Stages(map[], "", c); Journals(map[], "", c);
    BeginsUnanchored(c); TracksAda(c); MergesAda(c); Persists(c); Ends(c); CommitsUnanchored(c);
    var s0, s2 := Bare(map[]), Creating(map[], "", c, {}, true, Insert("", Staged));
    var s4, s5 := Merging(c, true, false, InsertPhase.Merging), Merging(c, true, true, InsertPhase.Merging);
    Connects(MentionsAda, s0, Creating(map[], "", c, {}, false, Insert("", Staging)),
             [Persist(SyncText({c})), Persist(SyncBodies), Ins(FinishStaging)], s2);
    var s3 := Creating(map[], "", c, {ADA}, true, Insert("", Applying));
    Connects(MentionsAda, s0, s2, [Ins(JournalCandidates)], s3);
    var s3' := Creating(map[], "", c, {ADA}, true, Insert("", InsertPhase.Merging));
    assert s3.(op := Insert("", InsertPhase.Merging)) == s3' by { PhaseOnly(map[], c); }
    Connects(MentionsAda, s0, s3, [Ins(BeginMerge)], s3');
    var tracked := Merging(c, false, false, InsertPhase.Merging);
    Connects(MentionsAda, s0, s3', [Ins(MergeTracking(ADA, {c}))], tracked);
    Connects(MentionsAda, s0, tracked, [Ins(MergeGraph(ADA, {c}))], s4);
    Connects(MentionsAda, s0, s4, [Persist(SyncTracking({ADA})), Persist(SyncGraph)], s5);
    Connects(MentionsAda, s0, s5, [Ins(EndMerge), Ins(FinishUnion)], Merging(c, true, true, Ready));
    Connects(MentionsAda, s0, Merging(c, true, true, Ready), [Ins(Commit)], Created(c));
  }

  lemma PhaseOnly(tracking: Provenance, c: Chunk)
    ensures Creating(tracking, "", c, {ADA}, true, Insert("", Applying)).(op := Insert("", InsertPhase.Merging))
      == Creating(tracking, "", c, {ADA}, true, Insert("", InsertPhase.Merging))
  {
  }

  /** From an empty store, a creation under the empty id commits: the graph cites its chunk, no anchor is written and no
      journal is left, so the citation cannot be found again from the document, and a purge of the document's chunk by
      its anchors visits nothing. */
  lemma NamelessCreationIsLost() returns (s: State, c: Chunk)
    ensures Settled(MentionsAda, Bare(map[])) && Connected(MentionsAda, Bare(map[]), s) && s.op == Idle && Quiet(s)
    ensures Cites(s.mem.graph, ADA, c) && Cites(s.disk.graph, ADA, c) && !Found(s, ADA, c)
    ensures
      var visited := set x | x in s.mem.anchors && x.0 == "" :: x.1;
      Classify(s.mem.graph, s.mem.tracking, {c}, visited, BestEffort) == Plan({}, map[])
  {
    c := Custom("", "x");
    s := Created(c);
    assert Settled(MentionsAda, Bare(map[]));
    hide Settled, Connected;
    NamelessCreationRuns(c);
  }
}
