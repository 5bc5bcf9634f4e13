/** Why a merge must begin with care: wherever it begins over a left-over tracking row, some continuation makes the
graph cite what no document backs. A row in memory is read by the merge itself. A row on disk, or one the merge
overwrites unread, comes into force when the object reaches the disk before its new row and the process crashes in
between. */
module Necessity {
  import opened Kg
  import opened Options
  import opened Protocol
  import opened Safety
  import opened InsertSteps
  import opened Runs
  import opened Moves
  import Leak
  import Operations

  ghost predicate IllegitimatelyCited(ex: Chunk -> Extraction, s: State) {
    exists k, c :: Cites(s.mem.graph, k, c) && !Backed(ex, ViewOf(s), k, c)
  }

  lemma OneStep(ex: Chunk -> Extraction, s: State, e: Event, s': State)
    requires Enabled(ex, s, e) && s' == Next(ex, s, e)
    ensures Leak.Connected(ex, s, s')
  {
    assert Leak.Reaches(ex, s, [e], s') by { assert [e][1..] == []; hide Enabled, Next; }
  }

  /** One more step. */
  lemma Onwards(ex: Chunk -> Extraction, s0: State, s: State, e: Event, s': State)
    requires Leak.Connected(ex, s0, s) && Enabled(ex, s, e) && s' == Next(ex, s, e)
    ensures Leak.Connected(ex, s0, s')
  {
    OneStep(ex, s, e, s');
    hide Enabled, Next, Leak.Connected;
    Leak.ConnectedIsTransitive(ex, s0, s, s');
  }

  // ---- Writing an object ----

  lemma ContributedHasSources(ex: Chunk -> Extraction, staged: set<Chunk>, k: Key)
    requires k in ContributedBy(ex, staged)
    ensures NewSources(ex, staged, k) != {}
    ensures k.Rel? ==> Ent(k.src) in ContributedBy(ex, staged) && Ent(k.tgt) in ContributedBy(ex, staged)
  {
    var c :| c in staged && k in Contributed(ex(c));
    CandidatesCoverContributions(ex(c));
    hide Contributed;
    assert c in NewSources(ex, staged, k);
  }

  lemma AddEntity(ex: Chunk -> Extraction, s0: State, s: State, n: string) returns (s': State)
    requires Leak.Connected(ex, s0, s) && Inserting(s, Merging) && Ent(n) in ContributedBy(ex, Batch(s))
    ensures Leak.Connected(ex, s0, s') && Ent(n) in s'.mem.graph
    ensures s' == s.(mem := s.mem.(graph := s.mem.graph[Ent(n) := s'.mem.graph[Ent(n)]]))
  {
    hide ContributedBy, NewSources, IncidentSources, Existing, Leak.Connected;
    ContributedHasSources(ex, Batch(s), Ent(n));
    var v := Existing(s.mem.graph, s.mem.tracking, Ent(n)) + NewSources(ex, Batch(s), Ent(n));
    s' := s.(mem := s.mem.(graph := s.mem.graph[Ent(n) := v]));
    Onwards(ex, s0, s, Ins(MergeGraph(Ent(n), v)), s');
  }

  /** The endpoints first, if it is a relation; then the object, with any sources a merge may give it. */
  lemma PutObject(ex: Chunk -> Extraction, s0: State, s: State, k: Key, v: set<Chunk>) returns (s': State)
    requires Leak.Connected(ex, s0, s) && Inserting(s, Merging) && k in ContributedBy(ex, Batch(s)) && k !in s.mem.graph
    requires v != {} && v <= Sources(s.mem.tracking, k) + NewSources(ex, Batch(s), k)
    ensures Leak.Connected(ex, s0, s') && k in s'.mem.graph && s'.mem.graph[k] == v
    ensures s' == s.(mem := s.mem.(graph := s'.mem.graph))
    ensures k.Rel? ==> Ent(k.src) in s'.mem.graph && Ent(k.tgt) in s'.mem.graph
  {
    hide ContributedBy, NewSources, IncidentSources, Leak.Connected;
    var m := s;
    if k.Rel? {
      ContributedHasSources(ex, Batch(s), k);
      m := AddEntity(ex, s0, s, k.src);
      m := AddEntity(ex, s0, m, k.tgt);
    }
    s' := m.(mem := m.mem.(graph := m.mem.graph[k := v]));
    assert Sources(m.mem.tracking, k) <= Existing(m.mem.graph, m.mem.tracking, k);
    hide Existing;
    Onwards(ex, s0, m, Ins(MergeGraph(k, v)), s');
  }

  // ---- A row in memory ----

  lemma MemoryRowReturns(ex: Chunk -> Extraction, s: State, k: Key, c: Chunk) returns (s': State)
    requires Enabled(ex, s, Ins(BeginMerge)) && k in ContributedBy(ex, Batch(s)) && k !in s.mem.graph
    requires Cites(s.mem.tracking, k, c) && !Backed(ex, ViewOf(s), k, c)
    ensures Leak.Connected(ex, s, s') && IllegitimatelyCited(ex, s')
  {
    var m := s.(op := s.op.(at := Merging));
    OneStep(ex, s, Ins(BeginMerge), m);
    hide ContributedBy, Backed, Leak.Connected;
    s' := PutObject(ex, s, m, k, s.mem.tracking[k]);
    assert Cites(s'.mem.graph, k, c) && ViewOf(s') == ViewOf(s);
  }

  // ---- A row on disk ----

  /** The disk holds all that a resume of the operation needs: the journal, which it will recompute, the staged rows,
      and for a new document its body and its anchors. */
  ghost predicate Resumable(ex: Chunk -> Extraction, s: State) {
    && Inserting(s, Applying)
    && var d, j := s.op.doc, Jn(s);
    && d in s.disk.rows && s.disk.rows[d] == s.mem.rows[d] && j.cands == CandidatesOf(ex, Batch(s))
    && j.chunks == (if j.mode == Create then j.op else Fresh(j.op, s.mem.rows[d].chunks, s.disk.text))
    && Batch(s) <= s.disk.text
    && (j.mode == Create ==> d in s.disk.bodies)
    && (j.mode == Create && d != "" ==> forall k :: k in j.cands ==> (d, k) in s.disk.anchors)
  }

  lemma ReadyIsResumable(ex: Chunk -> Extraction, s: State)
    requires Enabled(ex, s, Ins(BeginMerge))
    requires Inv(ex, s)
    ensures Resumable(ex, s)
  {
    hide CandidatesOf, StoresOk, DoneOk, RowsOk, MemRowsOk, MergeComplete;
    JournalFacts(ex, s, s.op.doc);
    if Jn(s).mode == Patch {
      FreshReadsOnlyCommittedRows(Jn(s).op, s.mem.rows[s.op.doc].chunks, s.disk.text, s.done.text);
    }
  }

  /** After a crash the same operation can be resumed and comes to its merge again, with nothing else changed. */
  lemma ResumesToMerge(ex: Chunk -> Extraction, s0: State, s: State, d: Doc) returns (s': State)
    requires Leak.Connected(ex, s0, s) && s.op.Idle? && s.disk == s.mem
    requires Resumable(ex, s.(op := Insert(d, Applying)))
    ensures Leak.Connected(ex, s0, s') && Inserting(s', Merging) && s'.op.doc == d
    ensures Batch(s') == Batch(s.(op := Insert(d, Applying)))
    ensures exists r: Row :: r.journal == s.mem.rows[d].journal && s'.(op := Idle) == WithRow(s, d, r)
  {
    hide Leak.Connected, Fresh, CandidatesOf;
    var j := s.mem.rows[d].journal.value;
    var r := Row(Processing, s.mem.rows[d].chunks, Some(j));
    var s1 := WithRow(s, d, r).(op := Insert(d, Staging));
    Onwards(ex, s0, s, Ins(Resume(d, j.op)), s1);
    var s2 := s1.(op := Insert(d, Staged));
    Onwards(ex, s0, s1, Ins(FinishStaging), s2);
    var s3 := s1.(op := Insert(d, Applying));
    JournalStays(ex, s2);
    Onwards(ex, s0, s2, Ins(JournalCandidates), s3);
    s' := s1.(op := Insert(d, Merging));
    Onwards(ex, s0, s3, Ins(BeginMerge), s');
  }

  lemma JournalStays(ex: Chunk -> Extraction, s: State)
    requires Inserting(s, Staged) && s.disk == s.mem && Jn(s).cands == CandidatesOf(ex, Batch(s))
    ensures Next(ex, s, Ins(JournalCandidates)) == s.(op := s.op.(at := Applying))
  {
    hide CandidatesOf;
    var row := s.mem.rows[s.op.doc];
    assert row.(journal := Some(Jn(s).(cands := CandidatesOf(ex, Batch(s))))) == row;
    assert s.mem.rows[s.op.doc := row] == s.mem.rows;
  }

  /** The first merge gets as far as writing the object, which reaches the disk alone; the second reads the row. */
  lemma DurableRowReturns(ex: Chunk -> Extraction, s0: State, s: State, k: Key, c: Chunk) returns (s': State)
    requires Leak.Connected(ex, s0, s) && Resumable(ex, s) && Enabled(ex, s, Ins(BeginMerge))
    requires k in ContributedBy(ex, Batch(s)) && k !in s.mem.graph
    requires Cites(s.disk.tracking, k, c) && !Backed(ex, ViewOf(s).(memText := s.disk.text), k, c)
    ensures Leak.Connected(ex, s0, s') && IllegitimatelyCited(ex, s')
  {
    hide Leak.Connected, ContributedBy, NewSources, CandidatesOf, Fresh, IncidentSources, Backed;
    var d, m0 := s.op.doc, s.(op := s.op.(at := Merging));
    Onwards(ex, s0, s, Ins(BeginMerge), m0);
    ContributedHasSources(ex, Batch(s), k);
    var m1 := PutObject(ex, s0, m0, k, NewSources(ex, Batch(s), k));
    var m2 := m1.(disk := m1.disk.(graph := m1.mem.graph));
    Onwards(ex, s0, m1, Persist(SyncGraph), m2);
    var m3 := m2.(mem := m2.disk, op := Idle);
    Onwards(ex, s0, m2, Persist(Crash), m3);
    assert Resumable(ex, m3.(op := Insert(d, Applying)));
    var m4 := ResumesToMerge(ex, s0, m3, d);
    var t := m4.mem.tracking[k];
    s' := m4.(mem := m4.mem.(graph := m4.mem.graph[k := t]));
    Onwards(ex, s0, m4, Ins(MergeGraph(k, t)), s');
    assert Cites(s'.mem.graph, k, c);
    ViewIsKept(ex, s, s', d, k, c);
  }

  /** A citation is backed by the journals, not by the status of their rows. */
  lemma ViewIsKept(ex: Chunk -> Extraction, s: State, s': State, d: Doc, k: Key, c: Chunk)
    requires d in s.disk.rows && s'.done == s.done && s'.mem.text == s.disk.text && s'.disk.text == s.disk.text
    requires exists r: Row :: r.journal == s.disk.rows[d].journal && s'.disk.rows == s.disk.rows[d := r]
    ensures Backed(ex, ViewOf(s'), k, c) == Backed(ex, ViewOf(s).(memText := s.disk.text), k, c)
  {
    hide Contributed;
  }

  lemma DiskRowReturns(ex: Chunk -> Extraction, s0: State, s: State, k: Key, c: Chunk) returns (s': State)
    requires Leak.Connected(ex, s0, s) && Enabled(ex, s, Ins(BeginMerge))
    requires k in ContributedBy(ex, Batch(s)) && k !in LiveKeys(s)
    requires Cites(s.disk.tracking, k, c) && !Backed(ex, ViewOf(s), k, c)
    requires Inv(ex, s)
    ensures Leak.Connected(ex, s0, s') && IllegitimatelyCited(ex, s')
  {
    hide Inv, Leak.Connected, ContributedBy, Contributed, CandidatesOf, Fresh;
    var m := s;
    if c in s.disk.text && c !in s.mem.text {
      m := s.(disk := s.disk.(text := Mix(s.disk.text, s.mem.text, {c})));
      Onwards(ex, s0, s, Persist(SyncText({c})), m);
      PersistenceKeeps(ex, s, SyncText({c}));
    }
    ReadyIsResumable(ex, m);
    hide Resumable, IllegitimatelyCited;
    s' := DurableRowReturns(ex, s0, m, k, c);
  }

  /** Care is exact. A merge that begins with care keeps the invariant, and with it every guarantee; from any other
      beginning, a continuation leads to a citation that no document backs. */
  lemma CarefulIsExact(ex: Chunk -> Extraction, s: State)
    requires Enabled(ex, s, Ins(BeginMerge))
    requires Inv(ex, s)
    ensures Careful(ex, s, Ins(BeginMerge)) ==> Inv(ex, Next(ex, s, Ins(BeginMerge)))
    ensures !Careful(ex, s, Ins(BeginMerge)) ==> exists s' :: Leak.Connected(ex, s, s') && IllegitimatelyCited(ex, s')
  {
    hide Inv, Leak.Connected, IllegitimatelyCited, Careful, Next, CandidatesOf;
    if Careful(ex, s, Ins(BeginMerge)) {
      assert Safe(ex, s);
      StepKeepsInv(ex, s, Ins(BeginMerge));
    } else {
      var s' := CarelessMergeReturns(ex, s);
    }
  }

  lemma FailingRow(ex: Chunk -> Extraction, v: View, t: Provenance, keys: set<Key>) returns (k: Key, c: Chunk)
    requires !LiveRows(ex, v, t, keys)
    ensures k in keys && k in t && c in t[k] && !Backed(ex, v, k, c)
  {
    hide Backed;
    k :| k in keys && k in t && !AllBacked(ex, v, k, t[k]);
    c :| c in t[k] && !Backed(ex, v, k, c);
  }

  lemma CarelessMergeReturns(ex: Chunk -> Extraction, s: State) returns (s': State)
    requires Enabled(ex, s, Ins(BeginMerge)) && !Careful(ex, s, Ins(BeginMerge))
    requires Inv(ex, s)
    ensures Leak.Connected(ex, s, s') && IllegitimatelyCited(ex, s')
  {
    hide Inv, Leak.Connected, ContributedBy, Contributed;
    hide CandidatesOf, Fresh, Backed, IllegitimatelyCited, Leak.Overwritten;
    assert Leak.Connected(ex, s, s) by { StaysConnected(ex, s); }
    var added := ContributedBy(ex, Batch(s)) - LiveKeys(s);
    if LiveRows(ex, ViewOf(s), s.mem.tracking, added) {
      var k, c := FailingRow(ex, ViewOf(s), s.disk.tracking, added);
      s' := DiskRowReturns(ex, s, s, k, c);
    } else {
      var k, c := FailingRow(ex, ViewOf(s), s.mem.tracking, added);
      if !Leak.Overwritten(ex, s.mem, Batch(s), k) {
        s' := MemoryRowReturns(ex, s, k, c);
      } else {
        var m := s.(disk := s.disk.(tracking := Overlay(s.disk.tracking, s.mem.tracking, {k})));
        Onwards(ex, s, s, Persist(SyncTracking({k})), m);
        PersistenceKeeps(ex, s, SyncTracking({k}));
        RowOverlaid(s.disk.tracking, s.mem.tracking, k);
        assert ViewOf(m) == ViewOf(s) && k in m.disk.tracking && m.disk.tracking[k] == s.mem.tracking[k];
        s' := DiskRowReturns(ex, s, m, k, c);
      }
    }
  }

  lemma RowOverlaid(to: Provenance, from: Provenance, k: Key)
    requires k in from
    ensures k in Overlay(to, from, {k}) && Overlay(to, from, {k})[k] == from[k]
  {
  }

  lemma StaysConnected(ex: Chunk -> Extraction, s: State)
    ensures Leak.Connected(ex, s, s)
  {
    assert Leak.Reaches(ex, s, [], s);
  }

  // ---- The call ----

  /** Since s0 an insert of d has come this far, and has touched nothing that its merge will read. */
  ghost predicate Prepared(ex: Chunk -> Extraction, s0: State, s: State, d: Doc, staged: set<Chunk>, at: InsertPhase) {
    && Leak.Connected(ex, s0, s) && Inserting(s, at) && s.op.doc == d && Batch(s) == staged
    && Operations.OthersSame(s0, s, d) && Inv(ex, s)
  }

  lemma Advances(ex: Chunk -> Extraction, s0: State, s: State, e: Event, s': State)
    requires Leak.Connected(ex, s0, s) && Step(ex, s, e, s') && !s.op.Doubt?
    requires Inv(ex, s)
    ensures Leak.Connected(ex, s0, s') && Inv(ex, s')
  {
    hide Inv, Leak.Connected;
    Onwards(ex, s0, s, e, s');
    hide Enabled, Next, Careful;
    StepKeepsInv(ex, s, e);
  }

  /** A call that is admitted opens its journal. */
  lemma CallOpens(ex: Chunk -> Extraction, s: State, d: Doc, ids: seq<Chunk>) returns (m: State)
    requires s.op.Idle? && Submittable(d, ids)
    requires !Operations.IsNoOp(s.mem, d, ids) && !Operations.IsRejected(s.mem, d, ids)
    requires Inv(ex, s)
    ensures Prepared(ex, s, m, d, Elems(Operations.BatchOf(s.mem, d, ids)), Staging)
  {
    hide Inv, Leak.Connected, Step, Fresh, Submittable;
    StaysConnected(ex, s);
    var e, r;
    if d !in s.mem.rows {
      e, r := StartCreate(d, ids), Row(Processing, [], Some(Journal(ids, Create, ids, {})));
      StartCreateLeads(ex, s, d, ids);
    } else if s.mem.rows[d].journal.None? {
      var row := s.mem.rows[d];
      e, r := StartPatch(d, ids), Row(Processing, row.chunks,
        Some(Journal(ids, Patch, Fresh(ids, row.chunks, s.mem.text), {})));
      StartPatchLeads(ex, s, d, ids);
    } else {
      var row, j := s.mem.rows[d], s.mem.rows[d].journal.value;
      var chunks := if j.mode == Create then ids else Fresh(ids, row.chunks, s.mem.text);
      e, r := Resume(d, ids), Row(Processing, row.chunks, Some(Journal(ids, j.mode, chunks, j.cands)));
      ResumeLeads(ex, s, d, ids);
    }
    m := WithRow(s, d, r).(op := Insert(d, Staging));
    Advances(ex, s, s, Ins(e), m);
  }

  lemma CallWritesText(ex: Chunk -> Extraction, s0: State, s: State, d: Doc, staged: set<Chunk>) returns (m: State)
    requires Prepared(ex, s0, s, d, staged, Staging)
    ensures Prepared(ex, s0, m, d, staged, Staging) && Jn(m) == Jn(s) && m.disk.text == m.mem.text
    ensures staged <= m.mem.text
  {
    hide Inv, Leak.Connected, Step;
    OwnChunks(ex, s, d);
    StageTextLeads(ex, s);
    var m1 := s.(mem := s.mem.(text := s.mem.text + staged));
    Advances(ex, s0, s, Ins(StageText), m1);
    m := m1.(disk := m1.disk.(text := m1.mem.text));
    var all := m1.disk.text + m1.mem.text;
    assert Mix(m1.disk.text, m1.mem.text, all) == m1.mem.text;
    assert Step(ex, m1, Persist(SyncText(all)), m) by { hide Mix; PersistLeads(ex, m1, SyncText(all)); }
    Advances(ex, s0, m1, Persist(SyncText(all)), m);
  }

  lemma PersistLeads(ex: Chunk -> Extraction, s: State, p: Persistence)
    requires EnabledPersist(s, p)
    ensures Step(ex, s, Persist(p), NextPersist(s, p))
  {
  }

  lemma CallStages(ex: Chunk -> Extraction, s0: State, s: State, d: Doc, staged: set<Chunk>) returns (m: State)
    requires Prepared(ex, s0, s, d, staged, Staging) && s.disk.text == s.mem.text && staged <= s.mem.text
    ensures Prepared(ex, s0, m, d, staged, Staged) && Jn(m) == Jn(s)
  {
    hide Inv, Leak.Connected, Step;
    var m2 := s;
    if Jn(s).mode == Create {
      StageBodyLeads(ex, s);
      var m1 := s.(mem := s.mem.(bodies := s.mem.bodies + {d}));
      Advances(ex, s0, s, Ins(StageBody), m1);
      PersistLeads(ex, m1, SyncBodies);
      m2 := m1.(disk := m1.disk.(bodies := m1.mem.bodies));
      Advances(ex, s0, m1, Persist(SyncBodies), m2);
    }
    FinishStagingLeads(ex, m2);
    m := m2.(op := Insert(d, Staged));
    Advances(ex, s0, m2, Ins(FinishStaging), m);
  }

  lemma CallJournals(ex: Chunk -> Extraction, s0: State, s: State, d: Doc, staged: set<Chunk>) returns (m: State)
    requires Prepared(ex, s0, s, d, staged, Staged)
    ensures Prepared(ex, s0, m, d, staged, Applying)
  {
    hide Inv, Leak.Connected, Step, CandidatesOf;
    JournalCandidatesLeads(ex, s);
    var r := s.mem.rows[d].(journal := Some(Jn(s).(cands := CandidatesOf(ex, staged))));
    m := WithRow(s, d, r).(op := Insert(d, Applying));
    Advances(ex, s0, s, Ins(JournalCandidates), m);
  }

  /** The candidates of this kind are anchored in memory. */
  predicate AnchoredKind(s: State, d: Doc, ents: bool)
    requires HasJournal(s.mem.rows, d)
  {
    forall k | k in s.mem.rows[d].journal.value.cands && k.Ent? == ents :: (d, k) in s.mem.anchors
  }

  lemma CallPrewrites(ex: Chunk -> Extraction, s0: State, s: State, d: Doc, staged: set<Chunk>, ents: bool)
    returns (m: State)
    requires Prepared(ex, s0, s, d, staged, Applying) && Jn(s).mode == Create && d != ""
    ensures Prepared(ex, s0, m, d, staged, Applying) && Jn(m) == Jn(s) && AnchoredKind(m, d, ents)
    ensures AnchoredKind(s, d, !ents) ==> AnchoredKind(m, d, !ents)
  {
    hide Inv, Leak.Connected, Step;
    PrewriteLeads(ex, s, ents);
    m := s.(mem := s.mem.(anchors := WithoutRow(s.mem.anchors, d, ents) + Rows(d, Jn(s).cands, ents)));
    Advances(ex, s0, s, Ins(PrewriteAnchors(ents)), m);
  }

  lemma CallFlushesAnchors(ex: Chunk -> Extraction, s0: State, s: State, d: Doc, staged: set<Chunk>) returns (m: State)
    requires Prepared(ex, s0, s, d, staged, Applying)
    ensures Prepared(ex, s0, m, d, staged, Applying) && m.mem == s.mem && m.disk.anchors == m.mem.anchors
  {
    hide Inv, Leak.Connected, Step;
    var all := s.disk.anchors + s.mem.anchors;
    assert Mix(s.disk.anchors, s.mem.anchors, all) == s.mem.anchors;
    PersistLeads(ex, s, SyncAnchors(all));
    m := s.(disk := s.disk.(anchors := s.mem.anchors));
    Advances(ex, s0, s, Persist(SyncAnchors(all)), m);
  }

  /** The anchors of a creation are prewritten and flushed. */
  lemma CallAnchors(ex: Chunk -> Extraction, s0: State, s: State, d: Doc, staged: set<Chunk>) returns (m: State)
    requires Prepared(ex, s0, s, d, staged, Applying)
    ensures Prepared(ex, s0, m, d, staged, Applying) && EnabledInsert(ex, m, BeginMerge)
  {
    hide Inv, Leak.Connected, Operations.OthersSame;
    m := s;
    if Jn(s).mode == Create && d != "" {
      m := CallPrewrites(ex, s0, m, d, staged, true);
      m := CallPrewrites(ex, s0, m, d, staged, false);
      m := CallFlushesAnchors(ex, s0, m, d, staged);
    }
  }

  /** Tidiness is exact already at the call: an admitted call without it can end in a citation that no document
      backs. */
  lemma UntidyCallReturns(ex: Chunk -> Extraction, s: State, d: Doc, ids: seq<Chunk>) returns (s': State)
    requires s.op.Idle? && Submittable(d, ids)
    requires !Operations.IsNoOp(s.mem, d, ids) && !Operations.IsRejected(s.mem, d, ids)
    requires !Operations.Tidy(ex, s, d, Elems(Operations.BatchOf(s.mem, d, ids)))
    requires Inv(ex, s)
    ensures Leak.Connected(ex, s, s') && IllegitimatelyCited(ex, s')
  {
    hide Inv, Leak.Connected, IllegitimatelyCited, Careful, Next, Submittable, Operations.Tidy, Operations.BatchOf;
    hide Operations.IsNoOp, Operations.IsRejected, Operations.OthersSame;
    var staged := Elems(Operations.BatchOf(s.mem, d, ids));
    var m := CallOpens(ex, s, d, ids);
    m := CallWritesText(ex, s, m, d, staged);
    m := CallStages(ex, s, m, d, staged);
    m := CallJournals(ex, s, m, d, staged);
    m := CallAnchors(ex, s, m, d, staged);
    Operations.TidyPersists(ex, s, m, d, staged);
    if Careful(ex, m, Ins(BeginMerge)) { Operations.CarefulIsTidy(ex, m); }
    s' := CarelessMergeReturns(ex, m);
    Leak.ConnectedIsTransitive(ex, s, m, s');
  }
}
