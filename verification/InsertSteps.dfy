/** The steps of ainsert_custom_chunks keep the safety invariant. */
module InsertSteps {
  import opened Kg
  import opened Options
  import opened Protocol
  import opened Safety

  // ---- The committed-content filter ----

  lemma {:induction false} FreshReadsOnlyCommittedRows(ids: seq<Chunk>, committed: seq<Chunk>, t1: set<Chunk>,
                                                       t2: set<Chunk>)
    requires forall b :: b in committed ==> b in t1 && b in t2
    ensures Fresh(ids, committed, t1) == Fresh(ids, committed, t2)
  {
    if ids != [] {
      FreshReadsOnlyCommittedRows(ids[1..], committed, t1, t2);
      assert (exists b | b in committed :: b in t1 && b.text == ids[0].text)
          == (exists b | b in committed :: b in t2 && b.text == ids[0].text);
    }
  }

  lemma {:induction false} FreshIsDistinct(ids: seq<Chunk>, committed: seq<Chunk>, text: set<Chunk>)
    requires Distinct(ids)
    ensures Distinct(Fresh(ids, committed, text))
  {
    if ids != [] {
      var rest := Fresh(ids[1..], committed, text);
      FreshIsDistinct(ids[1..], committed, text);
      assert forall i :: 0 <= i < |rest| ==> rest[i] in ids[1..] && rest[i] != ids[0];
    }
  }

  /** No staged id is one the document already owns, provided the owned chunks have their text rows; and
      submitting only owned content leaves nothing to stage. */
  lemma {:induction false} StagedIdsAreFresh(ids: seq<Chunk>, committed: seq<Chunk>, text: set<Chunk>)
    requires forall b :: b in committed ==> b in text
    ensures forall c :: c in Fresh(ids, committed, text) ==> c !in committed
    ensures (forall c :: c in ids ==> c in committed) ==> Fresh(ids, committed, text) == []
  {
    if forall c :: c in ids ==> c in committed {
      forall c | c in Fresh(ids, committed, text) ensures c !in ids {
        assert c.text == c.text;
      }
      if Fresh(ids, committed, text) != [] {
        assert Fresh(ids, committed, text)[0] in ids;
      }
    }
  }

  /** A chunk of this list has its row, and the row holds this content. */
  ghost predicate Stored(committed: seq<Chunk>, text: set<Chunk>, content: string) {
    exists b :: b in committed && b in text && b.text == content
  }

  /** The filter keeps exactly the chunks whose content is not stored yet, in their order. */
  lemma {:induction false} FreshKeepsTheRest(ids: seq<Chunk>, committed: seq<Chunk>, text: set<Chunk>)
    ensures forall c :: c in Fresh(ids, committed, text) <==> c in ids && !Stored(committed, text, c.text)
    ensures forall k :: 0 <= k <= |ids| ==> Fresh(ids[..k], committed, text) <= Fresh(ids, committed, text)
  {
    if ids != [] {
      FreshKeepsTheRest(ids[1..], committed, text);
      forall k | 0 < k <= |ids|
        ensures Fresh(ids[..k], committed, text) <= Fresh(ids, committed, text)
      {
        assert ids[..k][1..] == ids[1..][..k - 1] && ids[..k][0] == ids[0];
      }
    }
  }

  // ---- The union of two chunk lists ----

  lemma PrefixOfMore(c: Chunk, a: seq<Chunk>, b: seq<Chunk>)
    requires a <= b
    ensures [c] + a <= [c] + b
  {
  }

  lemma WithoutFirst(s: seq<Chunk>, gone: set<Chunk>)
    requires s != []
    ensures Without(s, gone) == if s[0] in gone then Without(s[1..], gone) else [s[0]] + Without(s[1..], gone)
    ensures Without([], gone) == []
  {
  }

  lemma {:induction false} WithoutInOrder(s: seq<Chunk>, gone: set<Chunk>, k: nat)
    requires k <= |s|
    ensures Without(s[..k], gone) <= Without(s, gone)
  {
    hide Without;
    if s != [] {
      WithoutFirst(s, gone);
      if k == 0 {
        assert s[..0] == [];
      } else {
        assert s[..k][1..] == s[1..][..k - 1] && s[..k][0] == s[0];
        WithoutFirst(s[..k], gone);
        WithoutInOrder(s[1..], gone, k - 1);
        PrefixOfMore(s[0], Without(s[1..][..k - 1], gone), Without(s[1..], gone));
      }
    } else {
      assert s[..k] == s;
    }
  }

  lemma {:induction false} WithoutIsDistinct(s: seq<Chunk>, gone: set<Chunk>)
    requires Distinct(s)
    ensures Distinct(Without(s, gone))
  {
    if s != [] {
      var rest := Without(s[1..], gone);
      WithoutIsDistinct(s[1..], gone);
      forall i | 0 <= i < |rest| ensures rest[i] != s[0] {
        assert rest[i] in rest && rest[i] in s[1..];
      }
    }
  }

  /** The committed list goes on with the new chunks in their order, none of them twice. */
  lemma UnionInOrder(base: seq<Chunk>, more: seq<Chunk>, k: nat)
    requires k <= |more|
    ensures base <= AppendNew(base, more) && AppendNew(base, more[..k]) <= AppendNew(base, more)
    ensures forall c :: c in AppendNew(base, more) <==> c in base || c in more
    ensures Distinct(base) && Distinct(more) ==> Distinct(AppendNew(base, more))
  {
    WithoutInOrder(more, Elems(base), k);
    if Distinct(more) { WithoutIsDistinct(more, Elems(base)); }
    var added, first := Without(more, Elems(base)), Without(more[..k], Elems(base));
    assert (base + added)[..|base| + |first|] == base + added[..|first|];
    assert forall i :: 0 <= i < |added| ==> added[i] in added;
    hide Without;
  }

  // ---- Writing a journaled row ----

  /** The row written for d either carries d's journal on, with at least its candidates, or opens a new
      journal without candidates. */
  ghost predicate RowStep(ex: Chunk -> Extraction, s: State, s': State, d: Doc, r: Row) {
    && s' == WithRow(s, d, r).(op := s'.op)
    && JournalOk(ex, s.done, d, r) && r.journal.Some?
    && (if HasJournal(s.mem.rows, d) then
          var j := s.mem.rows[d].journal.value;
          r.journal.value.chunks == j.chunks && r.journal.value.mode == j.mode && j.cands <= r.journal.value.cands
        else
          r.journal.value.cands == {} && (d !in s.mem.rows ==> r.journal.value.mode == Create))
  }

  lemma RowStepBacks(ex: Chunk -> Extraction, s: State, s': State, d: Doc, r: Row, p: Provenance, k: Key, c: Chunk)
    requires RowStep(ex, s, s', d, r) && MemRowsOk(s) && k in LiveKeys(s) && Cites(p, k, c)
    requires p == s.mem.graph || p == s.disk.graph || p == s.mem.tracking || p == s.disk.tracking
    requires Backed(ex, ViewOf(s), k, c)
    ensures Backed(ex, ViewOf(s'), k, c)
  {
    assert Cites(s.done.graph, k, c) || c in StagedBy(s.disk.rows, c.doc);
  }

  lemma RowStepKeepsGraph(ex: Chunk -> Extraction, s: State, s': State, d: Doc, r: Row, g: Provenance)
    requires RowStep(ex, s, s', d, r) && MemRowsOk(s)
    requires GraphOk(ex, ViewOf(s), g) && (g == s.mem.graph || g == s.disk.graph)
    ensures GraphOk(ex, ViewOf(s'), g)
  {
    forall k, c | Cites(g, k, c) ensures Backed(ex, ViewOf(s'), k, c) {
      RowStepBacks(ex, s, s', d, r, g, k, c);
    }
    hide MemRowsOk, Backed, JournalOk;
  }

  lemma RowStepKeepsTracking(ex: Chunk -> Extraction, s: State, s': State, d: Doc, r: Row, t: Provenance)
    requires RowStep(ex, s, s', d, r) && MemRowsOk(s)
    requires TrackingOk(ex, ViewOf(s), LiveKeys(s), t) && (t == s.mem.tracking || t == s.disk.tracking)
    ensures TrackingOk(ex, ViewOf(s'), LiveKeys(s'), t)
  {
    forall k, c | k in LiveKeys(s) && Cites(t, k, c) ensures Backed(ex, ViewOf(s'), k, c) {
      RowStepBacks(ex, s, s', d, r, t, k, c);
    }
    hide MemRowsOk, Backed, JournalOk;
  }

  lemma RowStepKeepsSets(ex: Chunk -> Extraction, s: State, s': State, d: Doc, r: Row, st: Stores)
    requires RowStep(ex, s, s', d, r) && MemRowsOk(s) && RowsOk(ex, s.done, s.disk.rows)
    requires st == s.mem || st == s.disk
    requires TextOk(ViewOf(s), st.text) && AnchorsOk(ViewOf(s), st.anchors) && BodiesOk(ViewOf(s), st.bodies)
    ensures TextOk(ViewOf(s'), st.text) && AnchorsOk(ViewOf(s'), st.anchors) && BodiesOk(ViewOf(s'), st.bodies)
  {
    hide CleanKg, RowTextOk, JournalOk;
    assert TextOk(ViewOf(s'), st.text) by { hide AnchorsOk, BodiesOk; }
    assert AnchorsOk(ViewOf(s'), st.anchors) by { hide TextOk, BodiesOk; }
    assert BodiesOk(ViewOf(s'), st.bodies) by { hide TextOk, AnchorsOk; }
    hide TextOk, AnchorsOk, BodiesOk;
  }

  lemma RowStepKeepsMemRows(ex: Chunk -> Extraction, s: State, s': State, d: Doc, r: Row)
    requires RowStep(ex, s, s', d, r) && MemRowsOk(s)
    ensures MemRowsOk(s')
  {
    hide JournalOk;
  }

  lemma RowStepKeeps(ex: Chunk -> Extraction, s: State, s': State, d: Doc, r: Row)
    requires Inv(ex, s) && RowStep(ex, s, s', d, r) && OpOk(ex, s')
    ensures Inv(ex, s')
  {
    hide GraphOk, TrackingOk, TextOk, AnchorsOk, BodiesOk, OpOk, DoneOk, JournalOk, MemRowsOk;
    RowStepKeepsGraph(ex, s, s', d, r, s.mem.graph);
    RowStepKeepsGraph(ex, s, s', d, r, s.disk.graph);
    RowStepKeepsTracking(ex, s, s', d, r, s.mem.tracking);
    RowStepKeepsTracking(ex, s, s', d, r, s.disk.tracking);
    RowStepKeepsSets(ex, s, s', d, r, s.mem);
    RowStepKeepsSets(ex, s, s', d, r, s.disk);
    RowStepKeepsMemRows(ex, s, s', d, r);
  }

  lemma StartCreateKeeps(ex: Chunk -> Extraction, s: State, d: Doc, ids: seq<Chunk>, s': State)
    requires Inv(ex, s) && s.op.Idle? && d !in s.mem.rows && d !in s.mem.bodies && Submittable(d, ids)
    requires s' == WithRow(s, d, Row(Processing, [], Some(Journal(ids, Create, ids, {})))).(op := Insert(d, Staging))
    ensures Inv(ex, s')
  {
    hide Inv;
    AbsentDocIsUncommitted(ex, s, d);
    RowStepKeeps(ex, s, s', d, Row(Processing, [], Some(Journal(ids, Create, ids, {}))));
  }

  lemma StartPatchKeeps(ex: Chunk -> Extraction, s: State, d: Doc, ids: seq<Chunk>, r: Row, s': State)
    requires Inv(ex, s) && s.op.Idle? && d in s.mem.rows && s.mem.rows[d].status == Processed
    requires s.mem.rows[d].journal.None?
    requires Submittable(d, ids) && Fresh(ids, s.mem.rows[d].chunks, s.mem.text) != []
    requires r == Row(Processing, s.mem.rows[d].chunks,
                      Some(Journal(ids, Patch, Fresh(ids, s.mem.rows[d].chunks, s.mem.text), {})))
    requires s' == WithRow(s, d, r).(op := Insert(d, Staging))
    ensures Inv(ex, s')
  {
    hide Inv;
    CommittedRowFacts(ex, s, d);
    FreshReadsOnlyCommittedRows(ids, r.chunks, s.mem.text, s.done.text);
    FreshIsDistinct(ids, r.chunks, s.mem.text);
    RowStepKeeps(ex, s, s', d, r);
  }

  /** A resume recomputes exactly the staged chunks of the journal it finds. */
  lemma ResumeKeeps(ex: Chunk -> Extraction, s: State, d: Doc, ids: seq<Chunk>, r: Row, s': State)
    requires Inv(ex, s) && s.op.Idle? && HasJournal(s.mem.rows, d) && s.mem.rows[d].journal.value.op == ids
    requires
      var row := s.mem.rows[d];
      var j := row.journal.value;
      r == Row(Processing, row.chunks, Some(Journal(ids, j.mode,
               if j.mode == Create then ids else Fresh(ids, row.chunks, s.mem.text), j.cands)))
    requires s' == WithRow(s, d, r).(op := Insert(d, Staging))
    ensures Inv(ex, s')
    ensures r.journal == s.mem.rows[d].journal
  {
    hide Inv;
    JournalFacts(ex, s, d);
    if s.mem.rows[d].journal.value.mode == Patch {
      FreshReadsOnlyCommittedRows(ids, r.chunks, s.mem.text, s.done.text);
    }
    RowStepKeeps(ex, s, s', d, r);
  }

  lemma JournalCandidatesKeeps(ex: Chunk -> Extraction, s: State, r: Row, s': State)
    requires Inv(ex, s) && Inserting(s, Staged)
    requires r == s.mem.rows[s.op.doc].(journal := Some(Jn(s).(cands := CandidatesOf(ex, Batch(s)))))
    requires s' == WithRow(s, s.op.doc, r).(op := s.op.(at := Applying))
    ensures Inv(ex, s')
  {
    hide CandidatesOf, DoneOk, RowsOk, StoresOk, MemRowsOk, Clean, CleanKg;
    assert OpOk(ex, s');
    JournalFacts(ex, s, s.op.doc);
    hide Inv, OpOk;
    RowStepKeeps(ex, s, s', s.op.doc, r);
  }

  lemma RecordFailureKeeps(ex: Chunk -> Extraction, s: State, r: Row, s': State)
    requires Inv(ex, s) && s.op.Insert? && HasJournal(s.mem.rows, s.op.doc)
    requires r == s.mem.rows[s.op.doc].(status := Failed) && s' == WithRow(s, s.op.doc, r).(op := Idle)
    ensures Inv(ex, s')
  {
    hide Inv, CandidatesOf;
    JournalFacts(ex, s, s.op.doc);
    RowStepKeeps(ex, s, s', s.op.doc, r);
  }

  /** Where journaling the candidates failed, the failure is recorded with the candidates all the same. */
  lemma RecordFailureWithCandidatesKeeps(ex: Chunk -> Extraction, s: State, s': State)
    requires Inserting(s, Staged)
    requires
      var j := Jn(s).(cands := CandidatesOf(ex, Batch(s)));
      s' == WithRow(s, s.op.doc, s.mem.rows[s.op.doc].(status := Failed, journal := Some(j))).(op := Idle)
    requires Inv(ex, s)
    ensures Inv(ex, s')
  {
    hide Inv, CandidatesOf;
    var d := s.op.doc;
    var r := s.mem.rows[d].(journal := Some(Jn(s).(cands := CandidatesOf(ex, Batch(s)))));
    var m := WithRow(s, d, r).(op := s.op.(at := Applying));
    JournalCandidatesKeeps(ex, s, r, m);
    assert s'.mem.rows == m.mem.rows[d := r.(status := Failed)]
      && s'.disk.rows == m.disk.rows[d := r.(status := Failed)];
    RecordFailureKeeps(ex, m, r.(status := Failed), s');
  }

  // ---- Staging ----

  lemma StageTextKeepsStores(ex: Chunk -> Extraction, s: State, s': State)
    requires StoresOk(ex, ViewOf(s), LiveKeys(s), s.mem) && StoresOk(ex, ViewOf(s), LiveKeys(s), s.disk) && MemRowsOk(s)
    requires Inserting(s, Staging) && s' == s.(mem := s.mem.(text := s.mem.text + Batch(s)))
    requires forall c :: c in Batch(s) ==> c.doc == s.op.doc
    ensures StoresOk(ex, ViewOf(s'), LiveKeys(s'), s'.mem) && StoresOk(ex, ViewOf(s'), LiveKeys(s'), s'.disk)
  {
    hide GraphOk, TrackingOk, Clean;
    var v, v' := ViewOf(s), ViewOf(s');
    GraphExtends(ex, v, v', s.mem.graph);
    GraphExtends(ex, v, v', s.disk.graph);
    TrackingMixes(ex, v, v', LiveKeys(s), LiveKeys(s'), s.mem.tracking, s.mem.tracking, s.mem.tracking);
    TrackingMixes(ex, v, v', LiveKeys(s), LiveKeys(s'), s.disk.tracking, s.disk.tracking, s.disk.tracking);
  }

  lemma StageTextKeeps(ex: Chunk -> Extraction, s: State, s': State)
    requires Inv(ex, s) && Inserting(s, Staging)
    requires s' == s.(mem := s.mem.(text := s.mem.text + Batch(s)))
    ensures Inv(ex, s')
  {
    hide StoresOk, DoneOk, RowsOk, CleanKg;
    assert forall c :: c in Batch(s) ==> c.doc == s.op.doc by {
      hide MemRowsOk, OpOk;
      StagedByOneDoc(ex, s, s.op.doc, s.op.doc + "-");
    }
    StageTextKeepsStores(ex, s, s');
    forall d | d in s.disk.rows && d !in s.mem.rows ensures StagedBy(s.disk.rows, d) !! s'.mem.text {
      StagedByOneDoc(ex, s, d, s.op.doc);
    }
    assert forall staged :: CleanKg(s, staged) ==> CleanKg(s', staged) by { StageTextKeepsClean(s, s'); }
  }

  lemma StageTextKeepsClean(s: State, s': State)
    requires s' == s.(mem := s.mem.(text := s'.mem.text))
    ensures forall staged :: CleanKg(s, staged) ==> CleanKg(s', staged)
  {
  }

  /** Different documents never stage the same chunk. */
  lemma StagedByOneDoc(ex: Chunk -> Extraction, s: State, d: Doc, e: Doc)
    requires RowsOk(ex, s.done, s.disk.rows) && d != e
    ensures StagedBy(s.disk.rows, d) !! StagedBy(s.disk.rows, e)
    ensures forall c :: c in StagedBy(s.disk.rows, d) ==> c.doc == d && c.Custom?
  {
    assert d in s.disk.rows ==> JournalOk(ex, s.done, d, s.disk.rows[d]);
    assert e in s.disk.rows ==> JournalOk(ex, s.done, e, s.disk.rows[e]);
  }

  /** Steps that change only full_docs, full_entities/full_relations and the phase. */
  lemma SideStoresKeep(ex: Chunk -> Extraction, s: State, s': State)
    requires Inv(ex, s) && OpOk(ex, s')
    requires s' == s.(op := s'.op, mem := s.mem.(anchors := s'.mem.anchors, bodies := s'.mem.bodies),
                      disk := s.disk.(anchors := s'.disk.anchors, bodies := s'.disk.bodies))
    requires AnchorsOk(ViewOf(s), s'.mem.anchors) && AnchorsOk(ViewOf(s), s'.disk.anchors)
    requires BodiesOk(ViewOf(s), s'.mem.bodies) && BodiesOk(ViewOf(s), s'.disk.bodies)
    requires forall d :: d in s.disk.rows && d !in s.mem.rows ==> NoAnchors(s', d)
    ensures Inv(ex, s')
  {
    hide GraphOk, TrackingOk, TextOk, AnchorsOk, BodiesOk, DoneOk, RowsOk, OpOk;
  }

  lemma StageBodyKeeps(ex: Chunk -> Extraction, s: State, s': State)
    requires Inv(ex, s) && Inserting(s, Staging) && Jn(s).mode == Create
    requires s' == s.(mem := s.mem.(bodies := s.mem.bodies + {s.op.doc}))
    ensures Inv(ex, s')
  {
    assert OpOk(ex, s') by { hide StoresOk, MemRowsOk, RowsOk, DoneOk; }
    hide GraphOk, TrackingOk, TextOk, AnchorsOk, DoneOk, RowsOk, OpOk, Clean;
    SideStoresKeep(ex, s, s');
  }

  lemma PrewriteAnchorsKeeps(ex: Chunk -> Extraction, s: State, ents: bool, s': State)
    requires Inv(ex, s) && Inserting(s, Applying) && Jn(s).mode == Create && s.op.doc != ""
    requires s' == s.(mem := s.mem.(anchors := WithoutRow(s.mem.anchors, s.op.doc, ents)
      + Rows(s.op.doc, Jn(s).cands, ents)))
    ensures Inv(ex, s')
  {
    hide GraphOk, TrackingOk, TextOk, BodiesOk, RowsOk, Clean, RowTextOk, CandidatesOf;
    JournalFacts(ex, s, s.op.doc);
    assert AnchorsOk(ViewOf(s), s'.mem.anchors);
    assert OpOk(ex, s') by { hide StoresOk, MemRowsOk, DoneOk; }
    hide AnchorsOk, OpOk, JournalOk, DoneOk;
    SideStoresKeep(ex, s, s');
  }

  lemma UnionAnchorsKeeps(ex: Chunk -> Extraction, s: State, ents: bool, s': State)
    requires Inv(ex, s) && Inserting(s, Merged) && Jn(s).mode == Patch
    requires s' == s.(mem := s.mem.(anchors := s.mem.anchors + Rows(s.op.doc, Jn(s).cands, ents)))
    ensures Inv(ex, s')
  {
    assert OpOk(ex, s') by { hide StoresOk, MemRowsOk, RowsOk, DoneOk; }
    hide GraphOk, TrackingOk, TextOk, BodiesOk, DoneOk, RowsOk, OpOk, Clean;
    SideStoresKeep(ex, s, s');
  }

  lemma PhaseKeeps(ex: Chunk -> Extraction, s: State, s': State)
    requires Inv(ex, s) && OpOk(ex, s') && s' == s.(op := s'.op)
    ensures Inv(ex, s')
  {
    hide GraphOk, TrackingOk, TextOk, BodiesOk, AnchorsOk, DoneOk, RowsOk, OpOk;
  }

  // ---- Merging ----

  /** A citation that is legitimate for a relation is legitimate for both endpoints. */
  lemma EndpointBacked(ex: Chunk -> Extraction, s: State, e: Key, n: string, c: Chunk)
    requires DoneOk(ex, s.done) && RowsOk(ex, s.done, s.disk.rows)
    requires Touches(e, n) && Backed(ex, ViewOf(s), e, c)
    ensures Backed(ex, ViewOf(s), Ent(n), c)
  {
    hide CandidatesOf, RowTextOk;
    if Pending(ex, s.disk.rows, e, c) {
      assert JournalOk(ex, s.done, c.doc, s.disk.rows[c.doc]);
      CandidatesCoverContributions(ex(c));
      CandidatesOfCover(ex, StagedBy(s.disk.rows, c.doc));
    }
    hide Contributed, JournalOk;
  }

  lemma ExistingBacked(ex: Chunk -> Extraction, s: State, k: Key)
    requires GraphOk(ex, ViewOf(s), s.mem.graph)
    requires k in s.mem.tracking ==> AllBacked(ex, ViewOf(s), k, s.mem.tracking[k])
    ensures AllBacked(ex, ViewOf(s), k, Existing(s.mem.graph, s.mem.tracking, k))
  {
    hide Backed;
  }

  lemma NewSourceBacked(ex: Chunk -> Extraction, s: State, k: Key, c: Chunk)
    requires s.op.Insert? && s.op.at == Merging && InsertOk(ex, s) && MemRowsOk(s) && RowsOk(ex, s.done, s.disk.rows)
    requires c in Batch(s) && k in Contributed(ex(c))
    ensures Backed(ex, ViewOf(s), k, c)
  {
    hide Clean, CandidatesOf, RowTextOk, Contributed;
    assert JournalOk(ex, s.done, s.op.doc, s.disk.rows[s.op.doc]);
    CandidatesOfCover(ex, Batch(s));
    assert k in ContributedBy(ex, Batch(s));
  }

  /** Every value a merge writes names only legitimate sources. */
  lemma MergeValueBacked(ex: Chunk -> Extraction, s: State, k: Key, v: set<Chunk>)
    requires Inv(ex, s) && Inserting(s, Merging) && MergeValue(ex, s.mem, Batch(s), k, v)
    ensures AllBacked(ex, ViewOf(s), k, v)
  {
    hide TrackingOk, TextOk, AnchorsOk, BodiesOk, MemRowsOk, DoneOk, RowsOk, Backed, Contributed, MergeComplete;
    var staged := Batch(s);
    forall e | e in ContributedBy(ex, staged) {
      ExistingBacked(ex, s, e);
    }
    hide GraphOk;
    forall c | c in v ensures Backed(ex, ViewOf(s), k, c) {
      if c in NewSources(ex, staged, k) {
        NewSourceBacked(ex, s, k, c);
      } else if c !in Existing(s.mem.graph, s.mem.tracking, k) {
        assert c in IncidentSources(ex, s.mem, staged, k);
        var e :| e in ContributedBy(ex, staged) && Touches(e, k.name) && c in Existing(s.mem.graph, s.mem.tracking, e);
        EndpointBacked(ex, s, e, k.name, c);
      }
    }
  }

  lemma BackedIsNotForgotten(ex: Chunk -> Extraction, s: State, d: Doc, k: Key, c: Chunk)
    requires DoneOk(ex, s.done) && RowsOk(ex, s.done, s.disk.rows) && MemRowsOk(s)
    requires d in s.disk.rows && d !in s.mem.rows && Backed(ex, ViewOf(s), k, c)
    ensures c !in StagedBy(s.disk.rows, d)
  {
    hide RowTextOk, CandidatesOf, CleanKg, Contributed;
    assert JournalOk(ex, s.done, d, s.disk.rows[d]);
  }

  /** A legitimate value adds nothing to a tracking row that a rolled-back document could be blamed for. */
  lemma BackedValueKeepsMemRows(ex: Chunk -> Extraction, s: State, s': State, k: Key, v: set<Chunk>)
    requires Inv(ex, s) && AllBacked(ex, ViewOf(s), k, v)
    requires s' == s.(mem := s.mem.(tracking := s.mem.tracking[k := v]), op := s'.op)
    ensures MemRowsOk(s')
  {
    hide StoresOk, DoneOk, RowsOk, OpOk, Backed;
    forall d, c | d in s.disk.rows && d !in s.mem.rows && c in v ensures c !in StagedBy(s.disk.rows, d) {
      BackedIsNotForgotten(ex, s, d, k, c);
    }
    hide StagedBy;
  }

  lemma BackedIsTraced(ex: Chunk -> Extraction, s: State, k: Key, c: Chunk)
    requires RowsOk(ex, s.done, s.disk.rows) && Backed(ex, ViewOf(s), k, c)
    ensures Cites(s.done.graph, k, c) || (c.Custom? && k in Contributed(ex(c)))
  {
    hide Contributed, RowTextOk, CandidatesOf;
    assert c.doc in s.disk.rows ==> JournalOk(ex, s.done, c.doc, s.disk.rows[c.doc]);
  }

  lemma TrackingWriteKeeps(ex: Chunk -> Extraction, s: State, s': State, k: Key, v: set<Chunk>)
    requires RowsOk(ex, s.done, s.disk.rows) && TrackingOk(ex, ViewOf(s), LiveKeys(s), s.mem.tracking)
    requires AllBacked(ex, ViewOf(s), k, v) && Sources(s.done.graph, k) <= v
    requires s' == s.(mem := s.mem.(tracking := s.mem.tracking[k := v]), op := s'.op)
    ensures TrackingOk(ex, ViewOf(s'), LiveKeys(s'), s'.mem.tracking)
  {
    hide RowsOk, Backed, Contributed;
    forall c | c in v ensures Cites(s.done.graph, k, c) || (c.Custom? && k in Contributed(ex(c))) {
      BackedIsTraced(ex, s, k, c);
    }
  }

  /** A merge never loses committed sources of an object it finds in the graph. */
  lemma MergeValueKeepsCommitted(ex: Chunk -> Extraction, s: State, k: Key, v: set<Chunk>)
    requires GraphOk(ex, ViewOf(s), s.mem.graph) && TrackingOk(ex, ViewOf(s), LiveKeys(s), s.mem.tracking)
    requires k in s.mem.graph ==> Existing(s.mem.graph, s.mem.tracking, k) <= v || v == s.mem.graph[k]
    ensures Sources(s.done.graph, k) <= v
  {
    hide Backed, Contributed;
  }

  lemma MergeStepKeepsOp(ex: Chunk -> Extraction, s: State, s': State, k: Key, v: set<Chunk>)
    requires OpOk(ex, s) && Inserting(s, Merging) && AllBacked(ex, ViewOf(s), k, v)
    requires s' == s.(mem := s.mem.(graph := s'.mem.graph, tracking := s'.mem.tracking))
    requires s'.mem.tracking == s.mem.tracking || s'.mem.tracking == s.mem.tracking[k := v]
    ensures OpOk(ex, s')
  {
    hide Backed, ContributedBy, CandidatesOf, MergeComplete;
  }

  lemma MergeTrackingKeeps(ex: Chunk -> Extraction, s: State, k: Key, v: set<Chunk>, s': State)
    requires Inv(ex, s) && Inserting(s, Merging) && MergeValue(ex, s.mem, Batch(s), k, v)
    requires k in s.mem.graph ==> Existing(s.mem.graph, s.mem.tracking, k) <= v || v == s.mem.graph[k]
    requires s' == s.(mem := s.mem.(tracking := s.mem.tracking[k := v]))
    ensures Inv(ex, s')
  {
    hide MemRowsOk, DoneOk, RowsOk, AllBacked, GraphOk, TrackingOk, TextOk, AnchorsOk, BodiesOk, MergeValue, OpOk;
    MergeValueBacked(ex, s, k, v);
    MergeValueKeepsCommitted(ex, s, k, v);
    BackedValueKeepsMemRows(ex, s, s', k, v);
    TrackingWriteKeeps(ex, s, s', k, v);
    MergeStepKeepsOp(ex, s, s', k, v);
  }

  lemma GraphWriteKeeps(ex: Chunk -> Extraction, s: State, s': State, k: Key, v: set<Chunk>)
    requires GraphOk(ex, ViewOf(s), s.mem.graph) && v != {} && AllBacked(ex, ViewOf(s), k, v)
    requires k.Rel? ==> Ent(k.src) in s.mem.graph && Ent(k.tgt) in s.mem.graph
    requires Sources(s.done.graph, k) <= v
    requires s' == s.(mem := s.mem.(graph := s.mem.graph[k := v]))
    ensures GraphOk(ex, ViewOf(s'), s'.mem.graph)
  {
    hide Backed;
  }

  /** A new graph object makes its tracking row count; those rows were checked when the merge began. */
  lemma LiveKeyAdded(ex: Chunk -> Extraction, v: View, live: set<Key>, k: Key, t: Provenance)
    requires TrackingOk(ex, v, live, t) && (k in t ==> AllBacked(ex, v, k, t[k]))
    ensures TrackingOk(ex, v, live + {k}, t)
  {
    hide Backed, Contributed;
  }

  lemma MergeGraphKeepsMemRows(ex: Chunk -> Extraction, s: State, s': State, k: Key, v: set<Chunk>)
    requires Inv(ex, s) && AllBacked(ex, ViewOf(s), k, v)
    requires AllBacked(ex, ViewOf(s), k, Sources(s.mem.tracking, k) + Sources(s.disk.tracking, k))
    requires s' == s.(mem := s.mem.(graph := s.mem.graph[k := v]))
    ensures MemRowsOk(s')
  {
    hide StoresOk, DoneOk, RowsOk, OpOk, Backed;
    var touched := v + Sources(s.mem.tracking, k) + Sources(s.disk.tracking, k);
    forall d, c | d in s.disk.rows && d !in s.mem.rows && c in touched ensures c !in StagedBy(s.disk.rows, d) {
      BackedIsNotForgotten(ex, s, d, k, c);
    }
    hide StagedBy, AllBacked;
    assert LiveKeys(s') == LiveKeys(s) + {k};
  }

  lemma MergeReadsLiveRow(ex: Chunk -> Extraction, s: State, k: Key)
    requires OpOk(ex, s) && Inserting(s, Merging) && k in ContributedBy(ex, Batch(s))
    ensures AllBacked(ex, ViewOf(s), k, Sources(s.mem.tracking, k) + Sources(s.disk.tracking, k))
    ensures k in s.mem.tracking ==> AllBacked(ex, ViewOf(s), k, s.mem.tracking[k])
    ensures k in s.disk.tracking ==> AllBacked(ex, ViewOf(s), k, s.disk.tracking[k])
  {
    hide Backed, ContributedBy, CandidatesOf, MergeComplete;
  }

  lemma MergeGraphKeeps(ex: Chunk -> Extraction, s: State, k: Key, v: set<Chunk>, s': State)
    requires Inv(ex, s) && Inserting(s, Merging) && MergeValue(ex, s.mem, Batch(s), k, v)
    requires k in s.mem.graph ==> Existing(s.mem.graph, s.mem.tracking, k) <= v
    requires k.Rel? ==> Ent(k.src) in s.mem.graph && Ent(k.tgt) in s.mem.graph
    requires s' == s.(mem := s.mem.(graph := s.mem.graph[k := v]))
    ensures Inv(ex, s')
  {
    hide MemRowsOk, DoneOk, RowsOk, AllBacked, GraphOk, TrackingOk, TextOk, AnchorsOk, BodiesOk, OpOk;
    hide Existing, NewSources, IncidentSources, ContributedBy;
    MergeValueBacked(ex, s, k, v);
    MergeReadsLiveRow(ex, s, k);
    MergeValueKeepsCommitted(ex, s, k, v);
    MergeGraphKeepsMemRows(ex, s, s', k, v);
    GraphWriteKeeps(ex, s, s', k, v);
    LiveKeyAdded(ex, ViewOf(s), LiveKeys(s), k, s.mem.tracking);
    LiveKeyAdded(ex, ViewOf(s), LiveKeys(s), k, s.disk.tracking);
    assert LiveKeys(s') == LiveKeys(s) + {k};
    MergeStepKeepsOp(ex, s, s', k, v);
  }

  // ---- Commit ----

  /** What the commit step has in hand. */
  ghost predicate CommitReady(ex: Chunk -> Extraction, s: State, s': State, d: Doc, j: Journal) {
    && HasJournal(s.disk.rows, d) && s.disk.rows[d].journal.value == j && JournalOk(ex, s.done, d, s.disk.rows[d])
    && d in s.mem.rows && s.mem.rows[d] == s.disk.rows[d]
    && j.cands == CandidatesOf(ex, Elems(j.chunks))
    && s' == WithRow(s, d, Row(Processed, AppendNew(s.mem.rows[d].chunks, j.chunks), None))
               .(done := CommitOf(ex, s.done, d, j), op := Idle)
  }

  lemma CommittedGraph(ex: Chunk -> Extraction, g: Provenance, staged: set<Chunk>, k: Key, c: Chunk)
    ensures Cites(AddContributions(ex, g, staged), k, c)
      <==> Cites(g, k, c) || (c in staged && k in Contributed(ex(c)))
  {
    hide Contributed;
    if c in staged && k in Contributed(ex(c)) {
      assert k in ContributedBy(ex, staged);
    }
  }

  lemma CommittedHasSource(ex: Chunk -> Extraction, g: Provenance, staged: set<Chunk>, k: Key)
    requires k in AddContributions(ex, g, staged) && (k in g ==> g[k] != {})
    ensures AddContributions(ex, g, staged)[k] != {}
  {
    if k in g {
      var c :| c in g[k];
      CommittedGraph(ex, g, staged, k, c);
    } else {
      CommittedKeyIsCited(ex, g, staged, k);
    }
    hide AddContributions;
  }

  lemma CommittedEdgeIsWithin(ex: Chunk -> Extraction, g: Provenance, staged: set<Chunk>, k: Key)
    requires k.Rel? && k in AddContributions(ex, g, staged) && (k in g ==> g[k] != {})
    requires k in g ==> Ent(k.src) in g && Ent(k.tgt) in g && g[k] <= g[Ent(k.src)] && g[k] <= g[Ent(k.tgt)]
    ensures
      var a := AddContributions(ex, g, staged);
      Ent(k.src) in a && Ent(k.tgt) in a && a[k] <= a[Ent(k.src)] && a[k] <= a[Ent(k.tgt)]
  {
    hide AddContributions, Contributed;
    var a := AddContributions(ex, g, staged);
    CommittedHasSource(ex, g, staged, k);
    forall c | Cites(a, k, c) ensures Cites(a, Ent(k.src), c) && Cites(a, Ent(k.tgt), c) {
      CommittedGraph(ex, g, staged, k, c);
      CommittedGraph(ex, g, staged, Ent(k.src), c);
      CommittedGraph(ex, g, staged, Ent(k.tgt), c);
      CandidatesCoverContributions(ex(c));
    }
    var c :| c in a[k];
    assert Cites(a, k, c);
    assert forall b :: b in a[k] ==> Cites(a, k, b);
  }

  lemma CommitKeepsDoneGraph(ex: Chunk -> Extraction, g: Provenance, staged: set<Chunk>)
    requires forall k :: k in g ==> g[k] != {}
    requires forall k :: k in g && k.Rel? ==>
      Ent(k.src) in g && Ent(k.tgt) in g && g[k] <= g[Ent(k.src)] && g[k] <= g[Ent(k.tgt)]
    ensures var a := AddContributions(ex, g, staged);
      && (forall k :: k in a ==> a[k] != {})
      && (forall k :: k in a && k.Rel? ==>
            Ent(k.src) in a && Ent(k.tgt) in a && a[k] <= a[Ent(k.src)] && a[k] <= a[Ent(k.tgt)])
  {
    hide AddContributions;
    var a := AddContributions(ex, g, staged);
    forall k | k in a ensures a[k] != {} { CommittedHasSource(ex, g, staged, k); }
    forall k | k in a && k.Rel?
      ensures Ent(k.src) in a && Ent(k.tgt) in a && a[k] <= a[Ent(k.src)] && a[k] <= a[Ent(k.tgt)]
    {
      CommittedEdgeIsWithin(ex, g, staged, k);
    }
  }

  lemma CommitKeepsCitations(ex: Chunk -> Extraction, s: State, s': State, d: Doc, j: Journal, k: Key, c: Chunk)
    requires DoneOk(ex, s.done) && CommitReady(ex, s, s', d, j) && Cites(s'.done.graph, k, c)
    ensures c.doc in s'.done.rows && c in s'.done.rows[c.doc].chunks
    ensures c.doc == "" || (c.doc, k) in s'.done.anchors
  {
    hide AddContributions, Contributed, CandidatesOf, RowTextOk;
    CommittedGraph(ex, s.done.graph, Elems(j.chunks), k, c);
    if !Cites(s.done.graph, k, c) {
      CandidatesOfCover(ex, Elems(j.chunks));
      assert k in ContributedBy(ex, Elems(j.chunks));
    }
  }

  lemma CommitKeepsRowText(ex: Chunk -> Extraction, s: State, s': State, d: Doc, j: Journal, e: Doc)
    requires DoneOk(ex, s.done) && CommitReady(ex, s, s', d, j) && e in s'.done.rows
    ensures s'.done.rows[e].journal.None? && RowTextOk(ex, s'.done, e, s'.done.rows[e].chunks)
  {
    hide AddContributions, Contributed, CandidatesOf;
    assert e in s.done.rows ==> RowTextOk(ex, s.done, e, s.done.rows[e].chunks);
    forall c, k | c in s'.done.rows[e].chunks && c.Custom? && k in Contributed(ex(c))
      ensures Cites(s'.done.graph, k, c)
    {
      CommittedGraph(ex, s.done.graph, Elems(j.chunks), k, c);
    }
  }

  lemma CommitKeepsText(ex: Chunk -> Extraction, s: State, s': State, d: Doc, j: Journal, c: Chunk)
    requires DoneOk(ex, s.done) && CommitReady(ex, s, s', d, j) && c in s'.done.text && c.Custom?
    ensures c.doc in s'.done.rows && c in s'.done.rows[c.doc].chunks
  {
    hide AddContributions, Contributed, CandidatesOf, RowTextOk;
  }

  lemma CommitKeepsDone(ex: Chunk -> Extraction, s: State, s': State, d: Doc, j: Journal)
    requires DoneOk(ex, s.done) && CommitReady(ex, s, s', d, j)
    ensures DoneOk(ex, s'.done)
  {
    hide AddContributions, Contributed, CandidatesOf, RowTextOk, AppendNew, JournalOk;
    assert s'.done.graph == AddContributions(ex, s.done.graph, Elems(j.chunks));
    CommitKeepsDoneGraph(ex, s.done.graph, Elems(j.chunks));
    forall k, c | Cites(s'.done.graph, k, c) { CommitKeepsCitations(ex, s, s', d, j, k, c); }
    forall e | e in s'.done.rows { CommitKeepsRowText(ex, s, s', d, j, e); }
    forall c | c in s'.done.text && c.Custom? { CommitKeepsText(ex, s, s', d, j, c); }
    hide CommitReady;
  }

  lemma CommitKeepsJournal(ex: Chunk -> Extraction, s: State, s': State, d: Doc, j: Journal, e: Doc)
    requires DoneOk(ex, s.done) && CommitReady(ex, s, s', d, j)
    requires e in s.disk.rows && e != d && JournalOk(ex, s.done, e, s.disk.rows[e])
    ensures JournalOk(ex, s'.done, e, s.disk.rows[e])
  {
    hide CandidatesOf, AddContributions, Contributed;
    var r := s.disk.rows[e];
    if r.journal.Some? && r.journal.value.mode == Patch {
      assert RowTextOk(ex, s.done, e, s.done.rows[e].chunks);
      FreshReadsOnlyCommittedRows(r.journal.value.op, r.chunks, s.done.text, s'.done.text);
    }
  }

  lemma CommitRowMatches(ex: Chunk -> Extraction, s: State, s': State, d: Doc, j: Journal)
    requires CommitReady(ex, s, s', d, j)
    ensures d in s'.disk.rows && s'.disk.rows[d].journal.None?
    ensures s'.done.rows == s.done.rows[d := s'.disk.rows[d]] && s'.disk.rows == s.disk.rows[d := s'.disk.rows[d]]
  {
    hide CandidatesOf, AddContributions, AppendNew, Submittable, Fresh;
  }

  lemma CommitKeepsRows(ex: Chunk -> Extraction, s: State, s': State, d: Doc, j: Journal)
    requires DoneOk(ex, s.done) && RowsOk(ex, s.done, s.disk.rows) && CommitReady(ex, s, s', d, j)
    ensures RowsOk(ex, s'.done, s'.disk.rows)
  {
    hide DoneOk, CommitReady, RowTextOk, CandidatesOf, Fresh, Submittable, Contributed;
    CommitRowMatches(ex, s, s', d, j);
    assert JournalOk(ex, s'.done, d, s'.disk.rows[d]);
    hide JournalOk, Elems, AppendNew, CommitOf, WithRow;
    forall e | e in s.disk.rows && e != d ensures JournalOk(ex, s'.done, e, s'.disk.rows[e]) {
      CommitKeepsJournal(ex, s, s', d, j, e);
    }
  }

  lemma CommitBacks(ex: Chunk -> Extraction, s: State, s': State, d: Doc, j: Journal, k: Key, c: Chunk)
    requires CommitReady(ex, s, s', d, j) && Backed(ex, ViewOf(s), k, c)
    ensures Backed(ex, ViewOf(s'), k, c)
  {
    hide Contributed, CandidatesOf, AddContributions, JournalOk;
    CommittedGraph(ex, s.done.graph, Elems(j.chunks), k, c);
  }

  lemma CommitKeepsGraph(ex: Chunk -> Extraction, s: State, s': State, d: Doc, j: Journal, st: Stores)
    requires CommitReady(ex, s, s', d, j) && MergeComplete(ex, st, Elems(j.chunks))
    requires GraphOk(ex, ViewOf(s), st.graph)
    ensures GraphOk(ex, ViewOf(s'), st.graph)
  {
    hide Contributed, CandidatesOf, AddContributions, JournalOk;
    forall k, c { CommittedGraph(ex, s.done.graph, Elems(j.chunks), k, c); }
    forall k, c | Cites(st.graph, k, c) ensures Backed(ex, ViewOf(s'), k, c) { CommitBacks(ex, s, s', d, j, k, c); }
    hide Backed;
    forall k | k in s'.done.graph ensures k in st.graph && s'.done.graph[k] <= st.graph[k] {
      assert forall c :: c in s'.done.graph[k] ==> Cites(s'.done.graph, k, c);
      if k !in s.done.graph {
        CommittedKeyIsCited(ex, s.done.graph, Elems(j.chunks), k);
      }
    }
  }

  lemma CommittedKeyIsCited(ex: Chunk -> Extraction, g: Provenance, staged: set<Chunk>, k: Key)
    requires k in AddContributions(ex, g, staged) && k !in g
    ensures exists c :: c in staged && k in Contributed(ex(c)) && Cites(AddContributions(ex, g, staged), k, c)
  {
    hide Contributed;
    var c :| c in staged && k in Contributed(ex(c));
    CommittedGraph(ex, g, staged, k, c);
  }

  lemma CommitKeepsTracking(ex: Chunk -> Extraction, s: State, s': State, d: Doc, j: Journal, st: Stores)
    requires CommitReady(ex, s, s', d, j) && MergeComplete(ex, st, Elems(j.chunks))
    requires TrackingOk(ex, ViewOf(s), LiveKeys(s), st.tracking)
    ensures TrackingOk(ex, ViewOf(s'), LiveKeys(s'), st.tracking)
  {
    hide Contributed, CandidatesOf, AddContributions, JournalOk;
    forall k, c { CommittedGraph(ex, s.done.graph, Elems(j.chunks), k, c); }
    forall k, c | k in LiveKeys(s) && Cites(st.tracking, k, c) ensures Backed(ex, ViewOf(s'), k, c) {
      CommitBacks(ex, s, s', d, j, k, c);
    }
    hide Backed;
    forall k | k in s'.done.graph && k in st.tracking && st.tracking[k] != {}
      ensures s'.done.graph[k] <= st.tracking[k]
    {
      assert forall c :: c in s'.done.graph[k] ==> Cites(s'.done.graph, k, c);
    }
  }

  lemma CommitKeepsOwns(ex: Chunk -> Extraction, c: Committed, d: Doc, j: Journal, e: Doc, k: Key)
    requires Owns(c, e, k)
    ensures Owns(CommitOf(ex, c, d, j), e, k)
  {
    var b :| Cites(c.graph, k, b) && b.doc == e;
    CommittedGraph(ex, c.graph, Elems(j.chunks), k, b);
    hide AddContributions, Contributed;
    assert Cites(CommitOf(ex, c, d, j).graph, k, b);
  }

  /** A committed citation that is anchored on record is anchored in the store. */
  lemma CommitKeepsAnchor(ex: Chunk -> Extraction, s: State, s': State, d: Doc, j: Journal, a: set<(Doc, Key)>, k: Key,
                          c: Chunk)
    requires DoneOk(ex, s.done) && CommitReady(ex, s, s', d, j) && AnchorsOk(ViewOf(s), a)
    requires forall c :: c in j.chunks ==> c.doc == d
    requires IsAnchored(d, j.mode) ==> forall k :: k in j.cands ==> (d, k) in a
    requires Cites(s'.done.graph, k, c) && (c.doc, k) in s'.done.anchors
    ensures (c.doc, k) in a
  {
    hide Contributed, CandidatesOf, AddContributions, RowTextOk, Owns;
    CommittedGraph(ex, s.done.graph, Elems(j.chunks), k, c);
    if !Cites(s.done.graph, k, c) {
      CandidatesOfCover(ex, Elems(j.chunks));
      assert k in ContributedBy(ex, Elems(j.chunks));
    }
  }

  lemma CommitKeepsAnchors(ex: Chunk -> Extraction, s: State, s': State, d: Doc, j: Journal, a: set<(Doc, Key)>)
    requires DoneOk(ex, s.done) && CommitReady(ex, s, s', d, j) && AnchorsOk(ViewOf(s), a)
    requires forall c :: c in j.chunks ==> c.doc == d
    requires IsAnchored(d, j.mode) ==> forall k :: k in j.cands ==> (d, k) in a
    ensures AnchorsOk(ViewOf(s'), a)
  {
    hide Contributed, CandidatesOf, AddContributions, JournalOk, DoneOk, Owns;
    forall k, c | Cites(s'.done.graph, k, c) && (c.doc, k) in s'.done.anchors ensures (c.doc, k) in a {
      CommitKeepsAnchor(ex, s, s', d, j, a, k, c);
    }
    forall e, k | Owns(s.done, e, k) ensures Owns(s'.done, e, k) { CommitKeepsOwns(ex, s.done, d, j, e, k); }
  }

  lemma CommitKeepsSets(ex: Chunk -> Extraction, s: State, s': State, d: Doc, j: Journal, st: Stores)
    requires DoneOk(ex, s.done) && CommitReady(ex, s, s', d, j) && Elems(j.chunks) <= st.text
    requires IsAnchored(d, j.mode) ==> forall k :: k in j.cands ==> (d, k) in st.anchors
    requires j.mode == Create ==> d in st.bodies
    requires TextOk(ViewOf(s), st.text) && AnchorsOk(ViewOf(s), st.anchors) && BodiesOk(ViewOf(s), st.bodies)
    ensures TextOk(ViewOf(s'), st.text) && AnchorsOk(ViewOf(s'), st.anchors) && BodiesOk(ViewOf(s'), st.bodies)
  {
    hide CandidatesOf, AddContributions, Fresh;
    CommitKeepsAnchors(ex, s, s', d, j, st.anchors);
    hide AnchorsOk;
    assert BodiesOk(ViewOf(s'), st.bodies) by { hide TextOk; }
    hide BodiesOk, JournalOk;
  }

  lemma CommitKeepsMemRows(s: State, s': State, d: Doc, r: Row)
    requires MemRowsOk(s) && d in s.mem.rows && s' == WithRow(s, d, r).(done := s'.done, op := Idle)
    ensures MemRowsOk(s')
  {
  }

  lemma CommitHasAll(ex: Chunk -> Extraction, s: State, s': State)
    requires Inv(ex, s) && Inserting(s, Ready)
    requires s' == WithRow(s, s.op.doc, Row(Processed, AppendNew(s.mem.rows[s.op.doc].chunks, Jn(s).chunks), None))
                     .(done := CommitOf(ex, s.done, s.op.doc, Jn(s)), op := Idle)
    ensures CommitReady(ex, s, s', s.op.doc, Jn(s))
    ensures MergeComplete(ex, s.mem, Batch(s)) && MergeComplete(ex, s.disk, Batch(s))
    ensures IsAnchored(s.op.doc, Jn(s).mode) ==> Anchored(s, s.op.doc, Jn(s).cands)
    ensures Batch(s) <= s.mem.text && Batch(s) <= s.disk.text
    ensures Jn(s).mode == Create ==> s.op.doc in s.mem.bodies && s.op.doc in s.disk.bodies
  {
    hide CandidatesOf, DoneOk, RowsOk, StoresOk, MemRowsOk, MergeComplete, CommitOf, AppendNew;
    JournalFacts(ex, s, s.op.doc);
  }

  lemma CommitKeepsStores(ex: Chunk -> Extraction, s: State, s': State, d: Doc, j: Journal, st: Stores, st': Stores)
    requires DoneOk(ex, s.done) && CommitReady(ex, s, s', d, j) && StoresOk(ex, ViewOf(s), LiveKeys(s), st)
    requires MergeComplete(ex, st, Elems(j.chunks)) && Elems(j.chunks) <= st.text
    requires IsAnchored(d, j.mode) ==> forall k :: k in j.cands ==> (d, k) in st.anchors
    requires j.mode == Create ==> d in st.bodies
    requires st' == st.(rows := st'.rows)
    ensures StoresOk(ex, ViewOf(s'), LiveKeys(s'), st')
  {
    hide CommitReady, GraphOk, TrackingOk, TextOk, AnchorsOk, BodiesOk, MergeComplete, DoneOk;
    CommitKeepsGraph(ex, s, s', d, j, st);
    CommitKeepsTracking(ex, s, s', d, j, st);
    CommitKeepsSets(ex, s, s', d, j, st);
  }

  lemma CommitKeeps(ex: Chunk -> Extraction, s: State, s': State)
    requires Inv(ex, s) && Inserting(s, Ready)
    requires s' == WithRow(s, s.op.doc, Row(Processed, AppendNew(s.mem.rows[s.op.doc].chunks, Jn(s).chunks), None))
                     .(done := CommitOf(ex, s.done, s.op.doc, Jn(s)), op := Idle)
    ensures Inv(ex, s')
  {
    hide CommitReady, CommitOf, AppendNew, DoneOk, RowsOk, StoresOk, MemRowsOk, MergeComplete, InsertOk, RollOk, Elems;
    var d, j := s.op.doc, Jn(s);
    CommitHasAll(ex, s, s');
    CommitKeepsDone(ex, s, s', d, j);
    CommitKeepsRows(ex, s, s', d, j);
    CommitKeepsStores(ex, s, s', d, j, s.mem, s'.mem);
    CommitKeepsStores(ex, s, s', d, j, s.disk, s'.disk);
    CommitKeepsMemRows(s, s', d, Row(Processed, AppendNew(s.mem.rows[d].chunks, j.chunks), None));
  }
}
