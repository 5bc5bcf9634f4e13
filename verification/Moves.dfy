/** When each write of a running operation is a step of the protocol, and where it leads: the protocol's
definitions, one event at a time, in the form the methods of module Operations use them. */
module Moves {
  import opened Kg
  import opened Options
  import opened Protocol
  import opened Safety

  // ---- Insert ----

  lemma StartCreateLeads(ex: Chunk -> Extraction, s: State, d: Doc, ids: seq<Chunk>)
    requires s.op.Idle? && d !in s.mem.rows && d !in s.mem.bodies && Submittable(d, ids)
    ensures Step(ex, s, Ins(StartCreate(d, ids)),
                  WithRow(s, d, Row(Processing, [], Some(Journal(ids, Create, ids, {})))).(op := Insert(d, Staging)))
  {
  }

  lemma StartPatchLeads(ex: Chunk -> Extraction, s: State, d: Doc, ids: seq<Chunk>)
    requires s.op.Idle? && d in s.mem.rows && s.mem.rows[d].status == Processed && s.mem.rows[d].journal.None?
    requires Submittable(d, ids) && Fresh(ids, s.mem.rows[d].chunks, s.mem.text) != []
    ensures
      var j := Journal(ids, Patch, Fresh(ids, s.mem.rows[d].chunks, s.mem.text), {});
      Step(ex, s, Ins(StartPatch(d, ids)),
            WithRow(s, d, Row(Processing, s.mem.rows[d].chunks, Some(j))).(op := Insert(d, Staging)))
  {
  }

  lemma ResumeLeads(ex: Chunk -> Extraction, s: State, d: Doc, ids: seq<Chunk>)
    requires s.op.Idle? && HasJournal(s.mem.rows, d) && s.mem.rows[d].journal.value.op == ids
    ensures
      var row := s.mem.rows[d];
      var mode := row.journal.value.mode;
      var chunks := if mode == Create then ids else Fresh(ids, row.chunks, s.mem.text);
      var j := Journal(ids, mode, chunks, row.journal.value.cands);
      Step(ex, s, Ins(Resume(d, ids)), WithRow(s, d, Row(Processing, row.chunks, Some(j))).(op := Insert(d, Staging)))
  {
  }

  lemma StageTextLeads(ex: Chunk -> Extraction, s: State)
    requires Inserting(s, Staging)
    ensures Step(ex, s, Ins(StageText), s.(mem := s.mem.(text := s.mem.text + Batch(s))))
  {
  }

  lemma StageBodyLeads(ex: Chunk -> Extraction, s: State)
    requires Inserting(s, Staging) && Jn(s).mode == Create
    ensures Step(ex, s, Ins(StageBody), s.(mem := s.mem.(bodies := s.mem.bodies + {s.op.doc})))
  {
  }

  lemma FinishStagingLeads(ex: Chunk -> Extraction, s: State)
    requires Inserting(s, Staging) && Batch(s) <= s.mem.text && s.disk.text == s.mem.text
    requires Jn(s).mode == Create ==> s.op.doc in s.mem.bodies && s.disk.bodies == s.mem.bodies
    ensures Step(ex, s, Ins(FinishStaging), s.(op := s.op.(at := Staged)))
  {
  }

  lemma JournalCandidatesLeads(ex: Chunk -> Extraction, s: State)
    requires Inserting(s, Staged)
    ensures Step(ex, s, Ins(JournalCandidates),
                  WithRow(s, s.op.doc,
                          s.mem.rows[s.op.doc].(journal := Some(Jn(s).(cands := CandidatesOf(ex, Batch(s))))))
                    .(op := s.op.(at := Applying)))
  {
    hide CandidatesOf;
  }

  lemma PrewriteLeads(ex: Chunk -> Extraction, s: State, ents: bool)
    requires Inserting(s, Applying) && Jn(s).mode == Create && s.op.doc != ""
    ensures Step(ex, s, Ins(PrewriteAnchors(ents)), s.(mem := s.mem.(
                    anchors := WithoutRow(s.mem.anchors, s.op.doc, ents) + Rows(s.op.doc, Jn(s).cands, ents))))
  {
  }

  lemma MergeTrackingLeads(ex: Chunk -> Extraction, s: State, k: Key, v: set<Chunk>)
    requires Inserting(s, Merging) && MergeValue(ex, s.mem, Batch(s), k, v)
    requires k in s.mem.graph ==> Existing(s.mem.graph, s.mem.tracking, k) <= v || v == s.mem.graph[k]
    ensures Step(ex, s, Ins(MergeTracking(k, v)), s.(mem := s.mem.(tracking := s.mem.tracking[k := v])))
  {
    hide MergeValue, Existing;
  }

  lemma MergeGraphLeads(ex: Chunk -> Extraction, s: State, k: Key, v: set<Chunk>)
    requires Inserting(s, Merging) && MergeValue(ex, s.mem, Batch(s), k, v)
    requires k in s.mem.graph ==> Existing(s.mem.graph, s.mem.tracking, k) <= v
    requires k.Rel? ==> Ent(k.src) in s.mem.graph && Ent(k.tgt) in s.mem.graph
    ensures Step(ex, s, Ins(MergeGraph(k, v)), s.(mem := s.mem.(graph := s.mem.graph[k := v])))
  {
    hide MergeValue, Existing;
  }

  lemma EndMergeLeads(ex: Chunk -> Extraction, s: State)
    requires Inserting(s, Merging) && MergeComplete(ex, s.mem, Batch(s)) && Flushed(s)
    ensures Step(ex, s, Ins(EndMerge), s.(op := s.op.(at := Merged)))
  {
    hide MergeComplete;
  }

  lemma UnionAnchorsLeads(ex: Chunk -> Extraction, s: State, ents: bool)
    requires Inserting(s, Merged) && Jn(s).mode == Patch
    ensures Step(ex, s, Ins(UnionAnchors(ents)),
                  s.(mem := s.mem.(anchors := s.mem.anchors + Rows(s.op.doc, Jn(s).cands, ents))))
  {
  }

  lemma FinishUnionLeads(ex: Chunk -> Extraction, s: State)
    requires Inserting(s, Merged)
    requires Jn(s).mode == Patch ==>
      s.disk.anchors == s.mem.anchors && forall k :: k in Jn(s).cands ==> (s.op.doc, k) in s.mem.anchors
    ensures Step(ex, s, Ins(FinishUnion), s.(op := s.op.(at := Ready)))
  {
  }

  lemma CommitLeads(ex: Chunk -> Extraction, s: State)
    requires Inserting(s, Ready)
    ensures Step(ex, s, Ins(Commit),
                  WithRow(s, s.op.doc, Row(Processed, AppendNew(s.mem.rows[s.op.doc].chunks, Jn(s).chunks), None))
                    .(done := CommitOf(ex, s.done, s.op.doc, Jn(s)), op := Idle))
  {
    hide CommitOf, AppendNew;
  }

  lemma CommitInDoubtLeads(ex: Chunk -> Extraction, s: State)
    requires Inserting(s, Ready)
    ensures Step(ex, s, Ins(CommitInDoubt),
                  WithRow(s, s.op.doc, Row(Processed, AppendNew(s.mem.rows[s.op.doc].chunks, Jn(s).chunks), None))
                    .(done := CommitOf(ex, s.done, s.op.doc, Jn(s)),
                      op := Doubt(s.op.doc, s.done, s.mem.rows[s.op.doc])))
  {
    hide CommitOf, AppendNew;
  }

  lemma RevokeLeads(ex: Chunk -> Extraction, s: State)
    requires s.op.Doubt?
    ensures Step(ex, s, Ins(Revoke), WithRow(s, s.op.doc, s.op.row.(status := Failed)).(done := s.op.prior, op := Idle))
  {
  }

  lemma RecordFailureLeads(ex: Chunk -> Extraction, s: State)
    requires s.op.Insert? && HasJournal(s.mem.rows, s.op.doc)
    ensures Step(ex, s, Ins(RecordFailure),
                  WithRow(s, s.op.doc, s.mem.rows[s.op.doc].(status := Failed)).(op := Idle))
  {
  }

  lemma RecordFailureWithCandidatesLeads(ex: Chunk -> Extraction, s: State)
    requires Inserting(s, Staged)
    ensures
      var j := Jn(s).(cands := CandidatesOf(ex, Batch(s)));
      Step(ex, s, Ins(RecordFailureWithCandidates),
            WithRow(s, s.op.doc, s.mem.rows[s.op.doc].(status := Failed, journal := Some(j))).(op := Idle))
  {
    hide CandidatesOf;
  }

  lemma AbortLeads(ex: Chunk -> Extraction, s: State)
    requires s.op != Idle
    ensures Step(ex, s, Ins(Abort), s.(op := Idle))
  {
  }

  // ---- Rollback ----

  lemma StartRollbackLeads(ex: Chunk -> Extraction, s: State, d: Doc)
    requires s.op.Idle? && HasJournal(s.mem.rows, d)
    ensures
      var j := s.mem.rows[d].journal.value;
      Step(ex, s, Rol(StartRollback(d)),
            s.(op := Roll(d, Classify(s.mem.graph, s.mem.tracking, Elems(j.chunks), j.cands, Rollback), Cutting)))
  {
    hide Classify;
  }

  lemma RepointLeads(ex: Chunk -> Extraction, s: State, k: Key)
    requires Rolling(s, Cutting) && k in s.op.plan.rebuild
    ensures Step(ex, s, Rol(Repoint(k)), s.(mem := s.mem.(tracking := s.mem.tracking[k := s.op.plan.rebuild[k]])))
  {
  }

  lemma CutEdgeLeads(ex: Chunk -> Extraction, s: State, k: Key)
    requires Rolling(s, Cutting) && k in s.op.plan.drop && k.Rel?
    ensures Step(ex, s, Rol(CutEdge(k)), s.(mem := s.mem.(graph := s.mem.graph - {k})))
  {
  }

  lemma CutNodeLeads(ex: Chunk -> Extraction, s: State, n: string)
    requires Rolling(s, Cutting) && Ent(n) in s.op.plan.drop
    ensures Step(ex, s, Rol(CutNode(n)), s.(mem := s.mem.(graph := RemoveNode(s.mem.graph, n))))
  {
  }

  lemma ForgetLeads(ex: Chunk -> Extraction, s: State, k: Key)
    requires Rolling(s, Cutting)
    requires k in s.op.plan.drop || (k in s.mem.graph && exists n | n in s.op.plan.drop :: n.Ent? && Touches(k, n.name))
    ensures Step(ex, s, Rol(Forget(k)), s.(mem := s.mem.(tracking := s.mem.tracking - {k})))
  {
  }

  lemma EndCutLeads(ex: Chunk -> Extraction, s: State)
    requires Rolling(s, Cutting) && Flushed(s) && CutDone(s.mem, s.op.plan)
    ensures Step(ex, s, Rol(EndCut), s.(op := s.op.(stage := Rebuilding)))
  {
    hide CutDone;
  }

  lemma RebuildTrackingLeads(ex: Chunk -> Extraction, s: State, k: Key)
    requires Rolling(s, Rebuilding) && k in s.op.plan.rebuild && k in s.mem.graph
    ensures Step(ex, s, Rol(RebuildTracking(k)),
                  s.(mem := s.mem.(tracking := s.mem.tracking[k := s.op.plan.rebuild[k]])))
  {
  }

  lemma RebuildGraphLeads(ex: Chunk -> Extraction, s: State, k: Key)
    requires Rolling(s, Rebuilding) && k in s.op.plan.rebuild && k in s.mem.graph
    ensures Step(ex, s, Rol(RebuildGraph(k)), s.(mem := s.mem.(graph := s.mem.graph[k := s.op.plan.rebuild[k]])))
  {
  }

  lemma EndRebuildLeads(ex: Chunk -> Extraction, s: State)
    requires Rolling(s, Rebuilding) && Flushed(s) && RebuildDone(s.mem, s.op.plan)
    ensures Step(ex, s, Rol(EndRebuild), s.(op := s.op.(stage := Rebuilt)))
  {
    hide RebuildDone;
  }

  lemma DropTextLeads(ex: Chunk -> Extraction, s: State)
    requires Rolling(s, Rebuilt)
    ensures Step(ex, s, Rol(DropText), s.(mem := s.mem.(text := s.mem.text - Batch(s))))
  {
  }

  lemma FinishDropLeads(ex: Chunk -> Extraction, s: State)
    requires Rolling(s, Rebuilt) && Batch(s) !! s.mem.text && s.disk.text == s.mem.text
    ensures Step(ex, s, Rol(FinishDrop), s.(op := s.op.(stage := Emptied)))
  {
  }

  lemma DropAnchorsLeads(ex: Chunk -> Extraction, s: State, ents: bool)
    requires Rolling(s, Emptied) && Jn(s).mode == Create
    ensures Step(ex, s, Rol(DropAnchors(ents)), s.(mem := s.mem.(anchors := WithoutRow(s.mem.anchors, s.op.doc, ents))))
  {
  }

  lemma FinishAnchorsLeads(ex: Chunk -> Extraction, s: State)
    requires Rolling(s, Emptied) && Jn(s).mode == Create && s.disk.anchors == s.mem.anchors
    requires forall k :: (s.op.doc, k) !in s.mem.anchors
    ensures Step(ex, s, Rol(FinishAnchors), s.(op := s.op.(stage := Unanchored)))
  {
  }

  lemma DropBodyLeads(ex: Chunk -> Extraction, s: State)
    requires Rolling(s, Unanchored)
    ensures Step(ex, s, Rol(DropBody), s.(mem := s.mem.(bodies := s.mem.bodies - {s.op.doc})))
  {
  }

  lemma DropRowLeads(ex: Chunk -> Extraction, s: State)
    requires Rolling(s, Unanchored) && s.op.doc !in s.mem.bodies
    ensures Step(ex, s, Rol(DropRow), s.(mem := s.mem.(rows := s.mem.rows - {s.op.doc}),
      op := s.op.(stage := RowDropped)))
  {
  }

  lemma FinishCreateLeads(ex: Chunk -> Extraction, s: State)
    requires s.op.Roll? && s.op.stage == RowDropped && s.op.doc !in s.disk.rows && s.op.doc !in s.disk.bodies
    ensures Step(ex, s, Rol(FinishCreate), s.(op := Idle))
  {
  }

  lemma PruneLeads(ex: Chunk -> Extraction, s: State, ents: bool)
    requires Rolling(s, Emptied) && Jn(s).mode == Patch
    ensures Step(ex, s, Rol(Prune(ents)), s.(mem := s.mem.(anchors := s.mem.anchors - Pruned(s, ents))))
  {
    hide Pruned;
  }

  lemma RestoreLeads(ex: Chunk -> Extraction, s: State)
    requires Rolling(s, Emptied) && Jn(s).mode == Patch && s.disk.anchors == s.mem.anchors
    requires forall k :: k in Jn(s).cands && (s.op.doc, k) in s.mem.anchors ==> Owned(s, k)
    ensures Step(ex, s, Rol(Restore),
                  WithRow(s, s.op.doc, Row(Processed, Without(s.mem.rows[s.op.doc].chunks, Batch(s)), None))
                    .(op := Idle))
  {
    hide Owned;
  } }
