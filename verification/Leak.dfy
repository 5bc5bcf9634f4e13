/** Left-over tracking rows: where the protocol's guarantee stops, and exactly when.

A rollback skips every candidate that is absent from the graph, even when its tracking row exists. A merge
reads the tracking row of an object before the graph. So a row written just before a crash, for an object
that never reached the graph, outlives the rollback and can re-enter the graph with a later merge. */
module Leak {
  import opened Kg
  import opened Options
  import opened Protocol
  import opened Safety
  import opened InsertSteps
  import opened RollSteps
  import opened Guarantees

  // ---- The exact condition ----

  /** An endpoint that no chunk mentions on its own and that is not in the graph is written without reading
      its tracking row. */
  ghost predicate Overwritten(ex: Chunk -> Extraction, st: Stores, staged: set<Chunk>, k: Key) {
    k.Ent? && k !in st.graph && forall c :: c in staged ==> k.name !in ex(c).nodes
  }

  ghost function ReadFor(ex: Chunk -> Extraction, st: Stores, staged: set<Chunk>, k: Key): set<Chunk> {
    if Overwritten(ex, st, staged, k) then {} else Existing(st.graph, st.tracking, k)
  }

  /** The graph once every object of the operation has been merged, each with all it read and all that is new. */
  ghost function MergedGraph(ex: Chunk -> Extraction, st: Stores, staged: set<Chunk>): Provenance {
    map k | k in st.graph.Keys + ContributedBy(ex, staged) ::
      if k in ContributedBy(ex, staged)
      then ReadFor(ex, st, staged, k) + NewSources(ex, staged, k) + IncidentSources(ex, st, staged, k)
      else st.graph[k]
  }

  ghost predicate Legitimate(ex: Chunk -> Extraction, v: View, g: Provenance) {
    forall k :: k in g ==> AllBacked(ex, v, k, g[k])
  }

  /** What a caller can check before the merge: objects it will add have no left-over tracking rows. */
  ghost predicate NoLeftovers(ex: Chunk -> Extraction, s: State, staged: set<Chunk>) {
    forall k :: k in ContributedBy(ex, staged) && k !in s.mem.graph && !Overwritten(ex, s.mem, staged, k) ==>
      AllBacked(ex, ViewOf(s), k, Sources(s.mem.tracking, k))
  }

  lemma StagedAreBacked(ex: Chunk -> Extraction, s: State, k: Key, c: Chunk)
    requires Inserting(s, Applying) && c in Batch(s) && k in Contributed(ex(c))
    requires Inv(ex, s)
    ensures Backed(ex, ViewOf(s), k, c)
  {
    hide Inv, CandidatesOf, RowTextOk, Contributed, Clean, MergeComplete, AllBacked;
    RowsPart(ex, s); OpPart(ex, s);
    assert JournalOk(ex, s.done, s.op.doc, s.disk.rows[s.op.doc]);
    CandidatesOfCover(ex, Batch(s));
    assert k in ContributedBy(ex, Batch(s));
  }

  lemma ReadIsBacked(ex: Chunk -> Extraction, s: State, k: Key)
    requires Inserting(s, Applying) && NoLeftovers(ex, s, Batch(s)) && k in ContributedBy(ex, Batch(s))
    requires Inv(ex, s)
    ensures AllBacked(ex, ViewOf(s), k, ReadFor(ex, s.mem, Batch(s), k))
  {
    hide Inv, Backed, ContributedBy;
    GraphPart(ex, s); TrackingPart(ex, s);
    if k in s.mem.graph { ExistingHoldsCommitted(ex, s, k); }
  }

  lemma WrittenIsBacked(ex: Chunk -> Extraction, s: State, k: Key, c: Chunk)
    requires Inserting(s, Applying) && NoLeftovers(ex, s, Batch(s)) && k in MergedGraph(ex, s.mem, Batch(s))
    requires c in MergedGraph(ex, s.mem, Batch(s))[k]
    requires Inv(ex, s)
    ensures Backed(ex, ViewOf(s), k, c)
  {
    hide Inv, Backed, NoLeftovers, Existing, ContributedBy;
    var staged := Batch(s);
    if k !in ContributedBy(ex, staged) {
      GraphPart(ex, s);
    } else if c in NewSources(ex, staged, k) {
      StagedAreBacked(ex, s, k, c);
    } else if c in ReadFor(ex, s.mem, staged, k) {
      ReadIsBacked(ex, s, k);
    } else {
      RowsPart(ex, s);
      var e :| e in ContributedBy(ex, staged) && Touches(e, k.name) && c in Existing(s.mem.graph, s.mem.tracking, e);
      ReadIsBacked(ex, s, e);
      EndpointBacked(ex, s, e, k.name, c);
    }
  }

  /** A merge writes only legitimate citations exactly when no object it adds has a left-over tracking row. */
  lemma MergeIsLegitimateIff(ex: Chunk -> Extraction, s: State)
    requires Inserting(s, Applying)
    requires Inv(ex, s)
    ensures Legitimate(ex, ViewOf(s), MergedGraph(ex, s.mem, Batch(s))) <==> NoLeftovers(ex, s, Batch(s))
  {
    hide Inv, Backed;
    var g := MergedGraph(ex, s.mem, Batch(s));
    if NoLeftovers(ex, s, Batch(s)) {
      forall k, c | k in g && c in g[k] { WrittenIsBacked(ex, s, k, c); }
    }
    hide ContributedBy, IncidentSources, NewSources;
    if Legitimate(ex, ViewOf(s), g) {
      forall k | k in ContributedBy(ex, Batch(s)) && k !in s.mem.graph && !Overwritten(ex, s.mem, Batch(s), k)
        ensures AllBacked(ex, ViewOf(s), k, Sources(s.mem.tracking, k))
      {
        assert Sources(s.mem.tracking, k) <= g[k];
      }
    }
  }

  // ---- A run in which it happens ----

  ghost predicate Reaches(ex: Chunk -> Extraction, s: State, events: seq<Event>, s': State)
    decreases events
  {
    if events == [] then s' == s
    else Enabled(ex, s, events[0]) && Reaches(ex, Next(ex, s, events[0]), events[1..], s')
  }

  lemma {:induction false} ReachesAppend(ex: Chunk -> Extraction, s: State, e1: seq<Event>, m: State, e2: seq<Event>,
                                         s': State)
    requires Reaches(ex, s, e1, m) && Reaches(ex, m, e2, s')
    ensures Reaches(ex, s, e1 + e2, s')
    decreases e1
  {
    hide Enabled, Next;
    if e1 == [] {
      assert e1 + e2 == e2;
    } else {
      ReachesAppend(ex, Next(ex, s, e1[0]), e1[1..], m, e2, s');
      assert (e1 + e2)[1..] == e1[1..] + e2;
    }
  }

  /** One more event of a fixed list. */
  lemma Then(ex: Chunk -> Extraction, s: State, events: seq<Event>, i: nat, m: State, s': State)
    requires i < |events| && Enabled(ex, m, events[i]) && s' == Next(ex, m, events[i])
    requires if i == 0 then s == m else Reaches(ex, s, events[..i], m)
    ensures Reaches(ex, s, events[..i + 1], s')
    ensures i + 1 == |events| ==> Reaches(ex, s, events, s')
  {
    var e := events[i];
    assert Reaches(ex, m, [e], s') by { assert [e][1..] == []; hide Enabled, Next; }
    hide Enabled, Next;
    if i > 0 { ReachesAppend(ex, s, events[..i], m, [e], s'); }
    assert events[..i + 1] == (if i == 0 then [e] else events[..i] + [e]);
    if i + 1 == |events| { assert events[..i + 1] == events; }
  }

  const ADA := Ent("Ada")

  /** Every chunk mentions one entity. */
  function MentionsAda(c: Chunk): Extraction {
    Extraction({"Ada"}, {})
  }

  lemma OnlyAda(c: Chunk)
    ensures Contributed(MentionsAda(c)) == {ADA}
    ensures CandidatesOf(MentionsAda, {c}) == {ADA} && ContributedBy(MentionsAda, {c}) == {ADA}
    ensures NewSources(MentionsAda, {c}, ADA) == {c}
  {
    assert Candidates(MentionsAda(c)) == {ADA} && Contributed(MentionsAda(c)) == {ADA};
  }

  /** Nothing is stored but tracking rows. */
  function Bare(tracking: Provenance): State {
    var st := Stores(map[], tracking, {}, {}, {}, map[]);
    State(st, st, Committed(map[], {}, {}, {}, map[]), Idle)
  }

  /** Document d, of one chunk, is being created; its body and its chunk row have reached the disk or not. */
  function Creating(tracking: Provenance, d: Doc, c: Chunk, cands: set<Key>, onDisk: bool, op: Op): State {
    var row := Row(Processing, [], Some(Journal([c], Create, [c], cands)));
    var mem := Stores(map[], tracking, {c}, {}, {d}, map[d := row]);
    State(mem, if onDisk then mem else mem.(text := {}, bodies := {}), Committed(map[], {}, {}, {}, map[]), op)
  }

  function Prewritten(tracking: Provenance, d: Doc, c: Chunk, op: Op): State {
    var s := Creating(tracking, d, c, {ADA}, true, op);
    s.(mem := s.mem.(anchors := {(d, ADA)}), disk := s.disk.(anchors := {(d, ADA)}))
  }

  lemma Opens(tracking: Provenance, d: Doc, c: Chunk)
    requires c.Custom? && c.doc == d
    ensures Reaches(MentionsAda, Bare(tracking), [Ins(StartCreate(d, [c])), Ins(StageText), Ins(StageBody)],
                    Creating(tracking, d, c, {}, false, Insert(d, Staging)))
  {
    hide Reaches;
    var s0, es := Bare(tracking), [Ins(StartCreate(d, [c])), Ins(StageText), Ins(StageBody)];
    var s3 := Creating(tracking, d, c, {}, false, Insert(d, Staging));
    var s2 := s3.(mem := s3.mem.(bodies := {}));
    var s1 := s2.(mem := s2.mem.(text := {}));
    assert Elems([c]) == {c};
    Then(MentionsAda, s0, es, 0, s0, s1);
    Then(MentionsAda, s0, es, 1, s1, s2);
    Then(MentionsAda, s0, es, 2, s2, s3);
  }

  lemma Stages(tracking: Provenance, d: Doc, c: Chunk)
    requires c.Custom? && c.doc == d
    ensures Reaches(MentionsAda, Creating(tracking, d, c, {}, false, Insert(d, Staging)),
                    [Persist(SyncText({c})), Persist(SyncBodies), Ins(FinishStaging)],
                    Creating(tracking, d, c, {}, true, Insert(d, Staged)))
  {
    hide Reaches;
    var s0, es := Creating(tracking, d, c, {}, false, Insert(d, Staging)),
                  [Persist(SyncText({c})), Persist(SyncBodies), Ins(FinishStaging)];
    var s3 := Creating(tracking, d, c, {}, true, Insert(d, Staged));
    var s2 := s3.(op := Insert(d, Staging));
    var s1 := s2.(disk := s2.disk.(bodies := {}));
    assert Elems([c]) == {c};
    Then(MentionsAda, s0, es, 0, s0, s1);
    Then(MentionsAda, s0, es, 1, s1, s2);
    Then(MentionsAda, s0, es, 2, s2, s3);
  }

  lemma Journals(tracking: Provenance, d: Doc, c: Chunk)
    requires c.Custom? && c.doc == d
    ensures Reaches(MentionsAda, Creating(tracking, d, c, {}, true, Insert(d, Staged)), [Ins(JournalCandidates)],
                    Creating(tracking, d, c, {ADA}, true, Insert(d, Applying)))
  {
    hide Reaches;
    assert Elems([c]) == {c};
    OnlyAda(c);
    hide CandidatesOf;
    Then(MentionsAda, Creating(tracking, d, c, {}, true, Insert(d, Staged)), [Ins(JournalCandidates)], 0,
         Creating(tracking, d, c, {}, true, Insert(d, Staged)),
           Creating(tracking, d, c, {ADA}, true, Insert(d, Applying)));
  }

  lemma Prewrites(tracking: Provenance, d: Doc, c: Chunk)
    requires c.Custom? && c.doc == d && d != ""
    ensures Reaches(MentionsAda, Creating(tracking, d, c, {ADA}, true, Insert(d, Applying)),
                    [Ins(PrewriteAnchors(true)), Persist(SyncAnchors({(d, ADA)})), Ins(BeginMerge)],
                    Prewritten(tracking, d, c, Insert(d, Merging)))
  {
    hide Reaches;
    var s0, es := Creating(tracking, d, c, {ADA}, true, Insert(d, Applying)),
                  [Ins(PrewriteAnchors(true)), Persist(SyncAnchors({(d, ADA)})), Ins(BeginMerge)];
    assert Rows(d, {ADA}, true) == {(d, ADA)};
    var s2 := Prewritten(tracking, d, c, Insert(d, Applying));
    var s1 := s2.(disk := s2.disk.(anchors := {}));
    Then(MentionsAda, s0, es, 0, s0, s1);
    Then(MentionsAda, s0, es, 1, s1, s2);
    Then(MentionsAda, s0, es, 2, s2, Prewritten(tracking, d, c, Insert(d, Merging)));
  }

  lemma Merges(t: Provenance, t': Provenance, d: Doc, c: Chunk, v: set<Chunk>)
    requires c.Custom? && c.doc == d && c in v && v <= {c} + Sources(t, ADA) && t' == t[ADA := v]
    ensures
      var s, s' := Prewritten(t, d, c, Insert(d, Merging)), Prewritten(t', d, c, Insert(d, Merging));
      Reaches(MentionsAda, s, [Ins(MergeTracking(ADA, v))], s'.(disk := s.disk))
  {
    hide Reaches;
    var s, s' := Prewritten(t, d, c, Insert(d, Merging)), Prewritten(t', d, c, Insert(d, Merging));
    assert Elems([c]) == {c};
    OnlyAda(c);
    hide ContributedBy, NewSources;
    Then(MentionsAda, s, [Ins(MergeTracking(ADA, v))], 0, s, s'.(disk := s.disk));
  }

  lemma Crashes(d: Doc, c: Chunk)
    requires c.Custom? && c.doc == d
    ensures
      var s, s' := Prewritten(map[], d, c, Insert(d, Merging)), Prewritten(map[ADA := {c}], d, c, Insert(d, Merging));
      Reaches(MentionsAda, s'.(disk := s.disk), [Persist(SyncTracking({ADA})), Persist(Crash)],
              Prewritten(map[ADA := {c}], d, c, Idle))
  {
    hide Reaches;
    var s, s' := Prewritten(map[], d, c, Insert(d, Merging)), Prewritten(map[ADA := {c}], d, c, Insert(d, Merging));
    var s0, es := s'.(disk := s.disk), [Persist(SyncTracking({ADA})), Persist(Crash)];
    Then(MentionsAda, s0, es, 0, s0, s');
    Then(MentionsAda, s0, es, 1, s', Prewritten(map[ADA := {c}], d, c, Idle));
  }

  const NOTHING := Plan({}, map[])

  function Emptied(tracking: Provenance, d: Doc, c: Chunk, stage: RollPhase): State {
    var s := Prewritten(tracking, d, c, Roll(d, NOTHING, stage));
    s.(mem := s.mem.(text := {}), disk := s.disk.(text := {}))
  }

  /** The purge finds no candidate in the graph, so it has nothing to drop and nothing to rebuild. */
  lemma Skips(tracking: Provenance, d: Doc, c: Chunk)
    requires c.Custom? && c.doc == d
    ensures Reaches(MentionsAda, Prewritten(tracking, d, c, Idle),
      [Rol(StartRollback(d)), Rol(EndCut), Rol(EndRebuild)],
                    Prewritten(tracking, d, c, Roll(d, NOTHING, Rebuilt)))
  {
    hide Reaches;
    var s0, es := Prewritten(tracking, d, c, Idle), [Rol(StartRollback(d)), Rol(EndCut), Rol(EndRebuild)];
    assert Elems([c]) == {c};
    assert Classify(map[], tracking, {c}, {ADA}, Rollback) == NOTHING;
    var s1, s2 := Prewritten(tracking, d, c, Roll(d, NOTHING, Cutting)),
      Prewritten(tracking, d, c, Roll(d, NOTHING, Rebuilding));
    Then(MentionsAda, s0, es, 0, s0, s1);
    Then(MentionsAda, s0, es, 1, s1, s2);
    Then(MentionsAda, s0, es, 2, s2, Prewritten(tracking, d, c, Roll(d, NOTHING, Rebuilt)));
  }

  lemma Drops(tracking: Provenance, d: Doc, c: Chunk)
    requires c.Custom? && c.doc == d
    ensures Reaches(MentionsAda, Prewritten(tracking, d, c, Roll(d, NOTHING, Rebuilt)),
                    [Rol(DropText), Persist(SyncText({c})), Rol(FinishDrop)],
                    Emptied(tracking, d, c, RollPhase.Emptied))
  {
    hide Reaches;
    var s0, es := Prewritten(tracking, d, c, Roll(d, NOTHING, Rebuilt)),
      [Rol(DropText), Persist(SyncText({c})), Rol(FinishDrop)];
    assert Elems([c]) == {c};
    var s2 := Emptied(tracking, d, c, Rebuilt);
    var s1 := s2.(disk := s0.disk);
    Then(MentionsAda, s0, es, 0, s0, s1);
    Then(MentionsAda, s0, es, 1, s1, s2);
    Then(MentionsAda, s0, es, 2, s2, Emptied(tracking, d, c, RollPhase.Emptied));
  }

  function Unanchored(tracking: Provenance, d: Doc, c: Chunk, bodied: bool): State {
    var s := Emptied(tracking, d, c, RollPhase.Unanchored);
    var body := if bodied then {d} else {};
    s.(mem := s.mem.(anchors := {}, bodies := body), disk := s.disk.(anchors := {}, bodies := body))
  }

  lemma Unanchors(tracking: Provenance, d: Doc, c: Chunk)
    requires c.Custom? && c.doc == d
    ensures Reaches(MentionsAda, Emptied(tracking, d, c, RollPhase.Emptied),
                    [Rol(DropAnchors(true)), Persist(SyncAnchors({(d, ADA)})), Rol(FinishAnchors)],
                    Unanchored(tracking, d, c, true))
  {
    hide Reaches;
    var s0, es := Emptied(tracking, d, c, RollPhase.Emptied),
                  [Rol(DropAnchors(true)), Persist(SyncAnchors({(d, ADA)})), Rol(FinishAnchors)];
    assert WithoutRow({(d, ADA)}, d, true) == {};
    var s1 := s0.(mem := s0.mem.(anchors := {}));
    var s2 := s1.(disk := s1.disk.(anchors := {}));
    Then(MentionsAda, s0, es, 0, s0, s1);
    Then(MentionsAda, s0, es, 1, s1, s2);
    Then(MentionsAda, s0, es, 2, s2, Unanchored(tracking, d, c, true));
  }

  lemma Removes(tracking: Provenance, d: Doc, c: Chunk)
    requires c.Custom? && c.doc == d
    ensures Reaches(MentionsAda, Unanchored(tracking, d, c, true), [Rol(DropBody), Persist(SyncBodies)],
                    Unanchored(tracking, d, c, false))
  {
    hide Reaches;
    var s0, es := Unanchored(tracking, d, c, true), [Rol(DropBody), Persist(SyncBodies)];
    var s1 := s0.(mem := s0.mem.(bodies := {}));
    Then(MentionsAda, s0, es, 0, s0, s1);
    Then(MentionsAda, s0, es, 1, s1, Unanchored(tracking, d, c, false));
  }

  lemma Closes(tracking: Provenance, d: Doc, c: Chunk)
    requires c.Custom? && c.doc == d
    ensures Reaches(MentionsAda, Unanchored(tracking, d, c, false),
      [Rol(DropRow), Persist(SyncRows), Rol(FinishCreate)],
                    Bare(tracking))
  {
    hide Reaches;
    var s0, es := Unanchored(tracking, d, c, false), [Rol(DropRow), Persist(SyncRows), Rol(FinishCreate)];
    var s1 := s0.(mem := s0.mem.(rows := map[]), op := Roll(d, NOTHING, RowDropped));
    var s2 := s1.(disk := s1.disk.(rows := map[]));
    Then(MentionsAda, s0, es, 0, s0, s1);
    Then(MentionsAda, s0, es, 1, s1, s2);
    Then(MentionsAda, s0, es, 2, s2, Bare(tracking));
  }

  lemma Returns(d: Doc, c: Chunk, b: Chunk)
    requires b.Custom? && b.doc == d
    ensures
      var s := Prewritten(map[ADA := {c}], d, b, Insert(d, Merging));
      Reaches(MentionsAda, s, [Ins(MergeGraph(ADA, {c, b}))], s.(mem := s.mem.(graph := map[ADA := {c, b}])))
  {
    hide Reaches;
    var s := Prewritten(map[ADA := {c}], d, b, Insert(d, Merging));
    assert Elems([b]) == {b};
    OnlyAda(b);
    hide ContributedBy, NewSources;
    Then(MentionsAda, s, [Ins(MergeGraph(ADA, {c, b}))], 0, s, s.(mem := s.mem.(graph := map[ADA := {c, b}])));
  }

  // ---- The whole run ----

  ghost predicate Connected(ex: Chunk -> Extraction, s: State, s': State) {
    exists events :: Reaches(ex, s, events, s')
  }

  lemma Connects(ex: Chunk -> Extraction, s: State, m: State, events: seq<Event>, s': State)
    requires Connected(ex, s, m) && Reaches(ex, m, events, s')
    ensures Connected(ex, s, s')
  {
    var before :| Reaches(ex, s, before, m);
    ReachesAppend(ex, s, before, m, events, s');
  }

  lemma CreationBegins(tracking: Provenance, d: Doc, c: Chunk)
    requires c.Custom? && c.doc == d && d != ""
    ensures Connected(MentionsAda, Bare(tracking), Prewritten(tracking, d, c, Insert(d, Merging)))
  {
    hide Reaches, Creating, Prewritten;
    Opens(tracking, d, c); Stages(tracking, d, c); Journals(tracking, d, c); Prewrites(tracking, d, c);
    var s0, s2 := Bare(tracking), Creating(tracking, d, c, {}, true, Insert(d, Staged));
    Connects(MentionsAda, s0, Creating(tracking, d, c, {}, false, Insert(d, Staging)),
             [Persist(SyncText({c})), Persist(SyncBodies), Ins(FinishStaging)], s2);
    Connects(MentionsAda, s0, s2, [Ins(JournalCandidates)], Creating(tracking, d, c, {ADA}, true, Insert(d, Applying)));
    Connects(MentionsAda, s0, Creating(tracking, d, c, {ADA}, true, Insert(d, Applying)),
             [Ins(PrewriteAnchors(true)), Persist(SyncAnchors({(d, ADA)})), Ins(BeginMerge)],
             Prewritten(tracking, d, c, Insert(d, Merging)));
  }

  lemma RollbackEmpties(s0: State, tracking: Provenance, d: Doc, c: Chunk)
    requires c.Custom? && c.doc == d && Connected(MentionsAda, s0, Prewritten(tracking, d, c, Idle))
    ensures Connected(MentionsAda, s0, Unanchored(tracking, d, c, true))
  {
    hide Reaches, Connected, Prewritten, Emptied, Unanchored, Bare;
    Skips(tracking, d, c); Drops(tracking, d, c); Unanchors(tracking, d, c);
    var s3, s4 := Prewritten(tracking, d, c, Roll(d, NOTHING, Rebuilt)), Emptied(tracking, d, c, RollPhase.Emptied);
    Connects(MentionsAda, s0, Prewritten(tracking, d, c, Idle), [Rol(StartRollback(d)), Rol(EndCut), Rol(EndRebuild)],
      s3);
    Connects(MentionsAda, s0, s3, [Rol(DropText), Persist(SyncText({c})), Rol(FinishDrop)], s4);
    Connects(MentionsAda, s0, s4, [Rol(DropAnchors(true)), Persist(SyncAnchors({(d, ADA)})), Rol(FinishAnchors)],
             Unanchored(tracking, d, c, true));
  }

  lemma RollbackRuns(s0: State, tracking: Provenance, d: Doc, c: Chunk)
    requires c.Custom? && c.doc == d && Connected(MentionsAda, s0, Prewritten(tracking, d, c, Idle))
    ensures Connected(MentionsAda, s0, Bare(tracking))
  {
    hide Reaches, Connected, Prewritten, Emptied, Unanchored, Bare;
    RollbackEmpties(s0, tracking, d, c);
    Removes(tracking, d, c); Closes(tracking, d, c);
    Connects(MentionsAda, s0, Unanchored(tracking, d, c, true), [Rol(DropBody), Persist(SyncBodies)],
             Unanchored(tracking, d, c, false));
    Connects(MentionsAda, s0, Unanchored(tracking, d, c, false), [Rol(DropRow), Persist(SyncRows), Rol(FinishCreate)],
             Bare(tracking));
  }

  /** Creating document "a" crashes between the tracking write and the graph write and is rolled back in full;
      creating document "b" then makes the graph cite the deleted chunk of "a". */
  lemma LeftoverReturns() returns (s: State, a: Chunk)
    ensures Settled(MentionsAda, Bare(map[])) && Connected(MentionsAda, Bare(map[]), s)
    ensures Cites(s.mem.graph, ADA, a) && a !in s.mem.text && a !in s.disk.text
  {
    a := Custom("a", "x");
    var b := Custom("b", "y");
    var m := Prewritten(map[ADA := {a}], "b", b, Insert("b", Merging));
    s := m.(mem := m.mem.(graph := map[ADA := {a, b}]));
    assert Settled(MentionsAda, Bare(map[])) && Cites(s.mem.graph, ADA, a) && a !in s.mem.text && a !in s.disk.text;
    hide Reaches, Connected, Prewritten, Bare, Settled;
    CreationBegins(map[], "a", a);
    Merges(map[], map[ADA := {a}], "a", a, {a});
    Crashes("a", a);
    var s0, s1, s2 := Bare(map[]), Prewritten(map[], "a", a, Insert("a", Merging)),
      Prewritten(map[ADA := {a}], "a", a, Insert("a", Merging));
    Connects(MentionsAda, s0, s1, [Ins(MergeTracking(ADA, {a}))], s2.(disk := s1.disk));
    Connects(MentionsAda, s0, s2.(disk := s1.disk), [Persist(SyncTracking({ADA})), Persist(Crash)],
      Prewritten(map[ADA := {a}], "a", a, Idle));
    RollbackRuns(s0, map[ADA := {a}], "a", a);
    CreationBegins(map[ADA := {a}], "b", b);
    ConnectedIsTransitive(MentionsAda, s0, Bare(map[ADA := {a}]), m);
    Returns("b", a, b);
    Connects(MentionsAda, s0, m, [Ins(MergeGraph(ADA, {a, b}))], s);
  }

  lemma ConnectedIsTransitive(ex: Chunk -> Extraction, s: State, m: State, s': State)
    requires Connected(ex, s, m) && Connected(ex, m, s')
    ensures Connected(ex, s, s')
  {
    var events :| Reaches(ex, m, events, s');
    Connects(ex, s, m, events, s');
  }

  // ---- A body that outlives its row ----

  /** All that is stored is a body. */
  function BodyOnly(d: Doc): State {
    var st := Stores(map[], map[], {}, {}, {d}, map[]);
    State(st, st, Committed(map[], {}, {}, {}, map[]), Idle)
  }

  lemma Aborts(d: Doc, c: Chunk)
    ensures Reaches(MentionsAda, Prewritten(map[], d, c, Insert(d, Merging)), [Ins(Abort)],
      Prewritten(map[], d, c, Idle))
  {
    hide Reaches;
    var s := Prewritten(map[], d, c, Insert(d, Merging));
    Then(MentionsAda, s, [Ins(Abort)], 0, s, Prewritten(map[], d, c, Idle));
  }

  /** Body and row are deleted in memory; the row's deletion alone reaches the disk before a crash. */
  lemma RowGoesFirst(d: Doc, c: Chunk)
    requires c.Custom? && c.doc == d
    ensures Reaches(MentionsAda, Unanchored(map[], d, c, true),
                    [Rol(DropBody), Rol(DropRow), Persist(SyncRows), Persist(Crash)], BodyOnly(d))
  {
    hide Reaches;
    var s0, es := Unanchored(map[], d, c, true), [Rol(DropBody), Rol(DropRow), Persist(SyncRows), Persist(Crash)];
    var s1 := s0.(mem := s0.mem.(bodies := {}));
    var s2 := s1.(mem := s1.mem.(rows := map[]), op := Roll(d, NOTHING, RowDropped));
    var s3 := s2.(disk := s2.disk.(rows := map[]));
    Then(MentionsAda, s0, es, 0, s0, s1);
    Then(MentionsAda, s0, es, 1, s1, s2);
    Then(MentionsAda, s0, es, 2, s2, s3);
    Then(MentionsAda, s0, es, 3, s3, BodyOnly(d));
  }

  /** From an empty store, a creation is rolled back up to its last flush, of which only the status rows reach the disk:
      its body is left, in memory and on disk, with no operation open. */
  lemma BodyOutlivesRow(d: Doc)
    requires d != ""
    ensures Settled(MentionsAda, Bare(map[])) && Connected(MentionsAda, Bare(map[]), BodyOnly(d)) && Quiet(BodyOnly(d))
  {
    var c, s0 := Custom(d, "x"), Bare(map[]);
    assert Settled(MentionsAda, s0);
    hide Reaches, Connected, Prewritten, Emptied, Unanchored, Bare, Settled;
    CreationBegins(map[], d, c);
    Aborts(d, c);
    Connects(MentionsAda, s0, Prewritten(map[], d, c, Insert(d, Merging)), [Ins(Abort)], Prewritten(map[], d, c, Idle));
    RollbackEmpties(s0, map[], d, c);
    RowGoesFirst(d, c);
    Connects(MentionsAda, s0, Unanchored(map[], d, c, true),
             [Rol(DropBody), Rol(DropRow), Persist(SyncRows), Persist(Crash)], BodyOnly(d));
  }
}
