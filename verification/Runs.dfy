/** Every step of the protocol keeps the invariant, and with it every run. */
module Runs {
  import opened Kg
  import opened Options
  import opened Protocol
  import opened Safety
  import opened InsertSteps
  import opened RollSteps

  /** Any interleaving of writes, flushes, failures and crashes, for any number of documents. */
  ghost predicate IsRun(ex: Chunk -> Extraction, run: seq<State>, events: seq<Event>)
    requires |run| == |events| + 1
  {
    forall i :: 0 <= i < |events| ==> Step(ex, run[i], events[i], run[i + 1])
  }

  // ---- Every step keeps the invariant ----

  lemma PersistenceKeeps(ex: Chunk -> Extraction, s: State, p: Persistence)
    requires Inv(ex, s) && EnabledPersist(s, p)
    ensures Inv(ex, NextPersist(s, p))
  {
    hide Inv;
    var s' := NextPersist(s, p);
    match p
    case Crash => CrashKeeps(ex, s);
    case SyncRows => SyncRowsKeeps(ex, s, s');
    case DiscardRows => DiscardRowsKeeps(ex, s, s');
    case _ =>
      assert Mixed(s, s');
      MixKeeps(ex, s, s');
  }

  /** Steps that only move the operation on to its next phase. */
  lemma InsertPhaseKeeps(ex: Chunk -> Extraction, s: State, i: InsertStep)
    requires i.FinishStaging? || i.BeginMerge? || i.EndMerge? || i.FinishUnion? || i.Abort?
    requires EnabledInsert(ex, s, i) && Careful(ex, s, Ins(i))
    requires Inv(ex, s)
    ensures Inv(ex, NextInsert(ex, s, i))
  {
    hide Inv, AllBacked, CandidatesOf, ContributedBy, PlanOk;
    var s' := NextInsert(ex, s, i);
    OpPart(ex, s);
    TrackingPart(ex, s);
    assert OpOk(ex, s');
    hide TrackingOk, OpOk;
    PhaseKeeps(ex, s, s');
  }

  lemma CommitInDoubtKeeps(ex: Chunk -> Extraction, s: State, s': State)
    requires Inserting(s, Ready) && s' == NextInsert(ex, s, CommitInDoubt)
    requires Inv(ex, s)
    ensures Inv(ex, s')
  {
    hide Inv, AppendNew, CommitOf;
    CommitKeeps(ex, s, s'.(op := Idle));
    PhaseKeeps(ex, s'.(op := Idle), s');
  }

  lemma InsertKeeps(ex: Chunk -> Extraction, s: State, i: InsertStep)
    requires EnabledInsert(ex, s, i) && Careful(ex, s, Ins(i)) && !i.Revoke?
    requires Inv(ex, s)
    ensures Inv(ex, NextInsert(ex, s, i))
  {
    hide Inv, MergeValue;
    var s' := NextInsert(ex, s, i);
    match i
    case StartCreate(d, ids) => StartCreateKeeps(ex, s, d, ids, s');
    case StartPatch(d, ids) => StartPatchKeeps(ex, s, d, ids, s'.mem.rows[d], s');
    case Resume(d, ids) => ResumeKeeps(ex, s, d, ids, s'.mem.rows[d], s');
    case StageText => StageTextKeeps(ex, s, s');
    case StageBody => StageBodyKeeps(ex, s, s');
    case JournalCandidates => JournalCandidatesKeeps(ex, s, s'.mem.rows[s.op.doc], s');
    case PrewriteAnchors(ents) => PrewriteAnchorsKeeps(ex, s, ents, s');
    case MergeTracking(k, v) => MergeTrackingKeeps(ex, s, k, v, s');
    case MergeGraph(k, v) => MergeGraphKeeps(ex, s, k, v, s');
    case UnionAnchors(ents) => UnionAnchorsKeeps(ex, s, ents, s');
    case Commit => CommitKeeps(ex, s, s');
    case CommitInDoubt => CommitInDoubtKeeps(ex, s, s');
    case Revoke =>
    case RecordFailure => RecordFailureKeeps(ex, s, s'.mem.rows[s.op.doc], s');
    case RecordFailureWithCandidates => RecordFailureWithCandidatesKeeps(ex, s, s');
    case _ => InsertPhaseKeeps(ex, s, i);
  }

  lemma FinishCreateKeeps(ex: Chunk -> Extraction, s: State, s': State)
    requires s.op.Roll? && s' == s.(op := Idle)
    requires Inv(ex, s)
    ensures Inv(ex, s')
  {
    hide Inv, OpOk;
    IdleIsOk(ex, s');
    PhaseKeeps(ex, s, s');
  }

  lemma RollKeeps(ex: Chunk -> Extraction, s: State, r: RollStep)
    requires EnabledRoll(s, r)
    requires Inv(ex, s)
    ensures Inv(ex, NextRoll(s, r))
  {
    hide Inv;
    var s' := NextRoll(s, r);
    match r
    case StartRollback(d) => StartRollbackKeeps(ex, s, d, s');
    case Repoint(k) => RepointKeeps(ex, s, k, s');
    case CutEdge(k) => CutEdgeKeeps(ex, s, k, s');
    case CutNode(n) => CutNodeKeeps(ex, s, n, s');
    case Forget(k) => ForgetKeeps(ex, s, k, s');
    case EndCut => EndCutKeeps(ex, s, s');
    case RebuildTracking(k) => RepointKeeps(ex, s, k, s');
    case RebuildGraph(k) => RebuildGraphKeeps(ex, s, k, s');
    case EndRebuild => EndRebuildKeeps(ex, s, s');
    case DropText => DropTextKeeps(ex, s, s');
    case FinishDrop => FinishDropKeeps(ex, s, s');
    case DropAnchors(ents) => DropAnchorsKeeps(ex, s, ents, s');
    case FinishAnchors => FinishAnchorsKeeps(ex, s, s');
    case DropBody => DropBodyKeeps(ex, s, s');
    case DropRow => DropRowKeeps(ex, s, s');
    case FinishCreate => FinishCreateKeeps(ex, s, s');
    case Prune(ents) => PruneKeeps(ex, s, ents, s');
    case Restore => RestoreKeeps(ex, s, s');
  }

  // ---- A commit in doubt ----

  /** The state as it was before the commit. */
  function Undone(s: State): State
    requires s.op.Doubt?
  {
    WithRow(s, s.op.doc, s.op.row).(done := s.op.prior, op := Insert(s.op.doc, Ready))
  }

  /** While a commit is in doubt, the state is as good with it as without it. */
  ghost predicate Safe(ex: Chunk -> Extraction, s: State) {
    Inv(ex, s) && (s.op.Doubt? ==> Inv(ex, Undone(s)) && IsInDoubt(ex, s))
  }

  /** What is in doubt is the commit of the row that it replaced. */
  ghost predicate IsInDoubt(ex: Chunk -> Extraction, s: State)
    requires s.op.Doubt?
  {
    && Inserting(Undone(s), Ready)
    && s.done == CommitOf(ex, s.op.prior, s.op.doc, Jn(Undone(s)))
    && s.op.doc in s.mem.rows && s.op.doc in s.disk.rows
  }

  lemma PersistenceKeepsDoubt(ex: Chunk -> Extraction, s: State, p: Persistence)
    requires s.op.Doubt? && EnabledPersist(s, p) && p != Crash
    requires Safe(ex, s)
    ensures Safe(ex, NextPersist(s, p))
  {
    hide Inv, CommitOf;
    var s', u := NextPersist(s, p), Undone(s);
    PersistenceKeeps(ex, s, p);
    PersistenceKeeps(ex, u, p);
    assert Undone(s') == NextPersist(u, p);
    assert s'.op == s.op && s'.done == s.done && s'.mem.rows == s.mem.rows;
    assert s.op.doc in s'.disk.rows;
  }

  lemma RevokeKeeps(ex: Chunk -> Extraction, s: State, s': State)
    requires s.op.Doubt? && s' == WithRow(s, s.op.doc, s.op.row.(status := Failed)).(done := s.op.prior, op := Idle)
    requires Safe(ex, s)
    ensures Safe(ex, s')
  {
    hide Inv, CommitOf;
    var u := Undone(s);
    assert s' == WithRow(u, s.op.doc, u.mem.rows[s.op.doc].(status := Failed)).(op := Idle);
    RecordFailureKeeps(ex, u, u.mem.rows[s.op.doc].(status := Failed), s');
  }

  lemma DoubtKeeps(ex: Chunk -> Extraction, s: State, e: Event)
    requires s.op.Doubt? && Enabled(ex, s, e) && Careful(ex, s, e)
    requires Safe(ex, s)
    ensures Safe(ex, Next(ex, s, e))
  {
    hide Inv, IsInDoubt;
    match e
    case Persist(p) => if p == Crash { PersistenceKeeps(ex, s, p); } else { PersistenceKeepsDoubt(ex, s, p); }
    case Ins(i) => if i == Revoke { RevokeKeeps(ex, s, Next(ex, s, e)); } else { InsertKeeps(ex, s, i); }
    case Rol(_) =>
  }

  lemma StepKeepsInv(ex: Chunk -> Extraction, s: State, e: Event)
    requires Enabled(ex, s, e) && Careful(ex, s, e)
    requires Safe(ex, s)
    ensures Safe(ex, Next(ex, s, e))
  {
    hide Inv, EnabledPersist;
    if s.op.Doubt? {
      DoubtKeeps(ex, s, e);
    } else {
      hide EnabledInsert, EnabledRoll;
      match e
      case Persist(p) => PersistenceKeeps(ex, s, p);
      case Ins(i) => InsertKeeps(ex, s, i); NewDoubt(ex, s, i);
      case Rol(r) => RollKeeps(ex, s, r);
    }
  }

  /** Only a commit can come into doubt, and undoing it leads back. */
  lemma NewDoubt(ex: Chunk -> Extraction, s: State, i: InsertStep)
    requires EnabledInsert(ex, s, i) && !s.op.Doubt?
    requires Inv(ex, s)
    ensures
      var s' := NextInsert(ex, s, i);
      s'.op.Doubt? ==> i == CommitInDoubt && Undone(s') == s && Inserting(s, Ready) && IsInDoubt(ex, s')
  {
    hide Inv, AppendNew, CommitOf, MergeValue, MergeComplete, CandidatesOf;
    if i == CommitInDoubt {
      JournalFacts(ex, s, s.op.doc);
      var d, s' := s.op.doc, NextInsert(ex, s, i);
      assert s'.mem.rows[d := s.mem.rows[d]] == s.mem.rows && s'.disk.rows[d := s.mem.rows[d]] == s.disk.rows;
    }
  }

  lemma {:induction false} RunKeepsInv(ex: Chunk -> Extraction, run: seq<State>, events: seq<Event>, i: nat)
    requires |run| == |events| + 1 && IsRun(ex, run, events) && i < |run| && Safe(ex, run[0])
    ensures Safe(ex, run[i]) && Inv(ex, run[i])
  {
    hide Inv, Enabled, Careful, Next;
    if i > 0 {
      RunKeepsInv(ex, run, events, i - 1);
      assert Step(ex, run[i - 1], events[i - 1], run[i]);
      StepKeepsInv(ex, run[i - 1], events[i - 1]);
    }
  }
}
