/** Document bodies that outlive their document. The rollback of a creation deletes the body before the status row, but
the two stores reach the disk independently; what is left when the row's deletion is durable first, and exactly when. */
module Orphans {
  import opened Kg
  import opened Options
  import opened Protocol
  import opened Safety
  import opened Runs

  /** A body on disk that belongs to nothing committed and that no status row leads to. */
  ghost predicate Orphaned(s: State, d: Doc) {
    d in s.disk.bodies && d !in s.disk.rows && d !in s.done.bodies
  }

  /** The status row becomes durable as deleted while the body is still on disk. */
  ghost predicate Overtakes(s: State, s': State, d: Doc) {
    d in s.disk.rows && d !in s'.disk.rows && d in s.disk.bodies
  }

  /** At some point of the run that happened, and ever since the body has stayed on disk without a row. */
  ghost predicate Outlives(run: seq<State>, d: Doc) {
    exists i :: 0 <= i < |run| - 1 && Overtakes(run[i], run[i + 1], d) && StaysBare(run, i + 1, d)
  }

  ghost predicate StaysBare(run: seq<State>, from: nat, d: Doc) {
    forall j :: from <= j < |run| ==> d !in run[j].disk.rows && d in run[j].disk.bodies
  }

  // ---- Bodies in memory ----

  /** Memory holds no body without a row that the disk does not hold. */
  ghost predicate BodiesMatch(s: State) {
    forall d :: d in s.mem.bodies && d !in s.mem.rows ==> d in s.disk.bodies
  }

  /** What the writes of an insert do to bodies and to which rows there are. */
  lemma InsertBodies(ex: Chunk -> Extraction, s: State, i: InsertStep, s': State)
    requires EnabledInsert(ex, s, i) && s' == NextInsert(ex, s, i)
    ensures s'.disk.bodies == s.disk.bodies
    ensures s.mem.rows.Keys <= s'.mem.rows.Keys && s.disk.rows.Keys <= s'.disk.rows.Keys
    ensures s'.mem.bodies == s.mem.bodies || (s.op.Insert? && s.op.doc in s.mem.rows
      && s'.mem.bodies == s.mem.bodies + {s.op.doc})
  {
    hide MergeValue, MergeComplete, CandidatesOf, Fresh, CommitOf, AppendNew, Elems;
  }

  lemma RollBodies(s: State, r: RollStep, s': State)
    requires EnabledRoll(s, r) && s' == NextRoll(s, r)
    ensures s'.done == s.done && s'.disk.bodies == s.disk.bodies && s'.mem.bodies <= s.mem.bodies
    ensures s.disk.rows.Keys <= s'.disk.rows.Keys
    ensures forall d :: d in s.mem.rows && d !in s'.mem.rows ==> d !in s.mem.bodies
  {
    hide CutDone, RebuildDone, Classify, Pruned, Owned, Without, Elems, RemoveNode;
  }

  lemma PersistedBodies(s: State, p: Persistence, s': State)
    requires EnabledPersist(s, p) && s' == NextPersist(s, p) && MemRowsOk(s) && BodiesMatch(s)
    ensures BodiesMatch(s')
    ensures p != SyncRows ==> s'.disk.rows == s.disk.rows
    ensures s'.disk.bodies == s.disk.bodies || s'.disk.bodies == s.mem.bodies
  {
    hide Clean, NoAnchors, Overlay, Mix;
  }

  lemma StepKeepsBodiesMatch(ex: Chunk -> Extraction, s: State, e: Event, s': State)
    requires Step(ex, s, e, s') && BodiesMatch(s) && MemRowsOk(s)
    ensures BodiesMatch(s')
  {
    hide Careful, MemRowsOk;
    match e
    case Persist(p) => PersistedBodies(s, p, s'); hide Enabled, Next;
    case Ins(i) => InsertBodies(ex, s, i, s'); hide Enabled, Next;
    case Rol(r) => RollBodies(s, r, s'); hide Enabled, Next;
  }

  // ---- Where an orphan comes from ----

  /** What is committed shrinks only where a commit in doubt is revoked, and then its row is there. */
  lemma CommittedBodies(ex: Chunk -> Extraction, s: State, e: Event, s': State)
    requires Enabled(ex, s, e) && s' == Next(ex, s, e)
    requires Safe(ex, s)
    ensures forall d :: d !in s.disk.rows && d !in s.mem.rows ==> (d in s.done.bodies <==> d in s'.done.bodies)
  {
    hide Inv, MergeValue, MergeComplete, CutDone, RebuildDone, CandidatesOf;
    hide Fresh, Classify, Pruned, AppendNew, Without, Elems;
    hide AddContributions;
  }

  lemma OrphanOrigin(ex: Chunk -> Extraction, s: State, e: Event, s': State, d: Doc)
    requires Step(ex, s, e, s') && BodiesMatch(s) && MemRowsOk(s) && Orphaned(s', d)
    requires Safe(ex, s)
    ensures Orphaned(s, d) || Overtakes(s, s', d)
  {
    hide Careful, Safe, Clean, NoAnchors;
    CommittedBodies(ex, s, e, s');
    match e
    case Persist(p) =>
    case Ins(i) => InsertBodies(ex, s, i, s'); hide Enabled, Next, MemRowsOk;
    case Rol(r) => RollBodies(s, r, s'); hide Enabled, Next, MemRowsOk;
  }

  /** Only the rollback of a creation loses its row, at a moment when the rows alone reach the disk. */
  lemma OvertakenIsRolledBack(ex: Chunk -> Extraction, s: State, e: Event, s': State, d: Doc)
    requires Step(ex, s, e, s') && Overtakes(s, s', d)
    requires Inv(ex, s)
    ensures e == Persist(SyncRows) && HasJournal(s.disk.rows, d) && s.disk.rows[d].journal.value.mode == Create
    ensures Orphaned(s', d)
  {
    hide Inv, Careful, Clean, NoAnchors;
    RowsPart(ex, s);
    match e
    case Persist(p) =>
      assert p == SyncRows;
      assert JournalOk(ex, s.done, d, s.disk.rows[d]);
    case Ins(i) => InsertBodies(ex, s, i, s'); hide Enabled, Next;
    case Rol(r) => RollBodies(s, r, s'); hide Enabled, Next;
  }

  // ---- Whole runs ----

  /** A run from a store that nobody changes and whose bodies are the committed ones. */
  ghost predicate FromExact(ex: Chunk -> Extraction, run: seq<State>, events: seq<Event>)
    requires |run| == |events| + 1
  {
    IsRun(ex, run, events) && Safe(ex, run[0]) && run[0].mem.bodies == run[0].disk.bodies == run[0].done.bodies
  }

  lemma {:induction false} RunKeepsBodiesMatch(ex: Chunk -> Extraction, run: seq<State>, events: seq<Event>, n: nat)
    requires |run| == |events| + 1 && n < |run| && FromExact(ex, run, events)
    ensures BodiesMatch(run[n])
  {
    hide Inv, Safe, Enabled, Careful, Next;
    if n > 0 {
      hide BodiesMatch;
      RunKeepsBodiesMatch(ex, run, events, n - 1);
      RunKeepsInv(ex, run, events, n - 1);
      RowsPart(ex, run[n - 1]);
      assert Step(ex, run[n - 1], events[n - 1], run[n]);
      StepKeepsBodiesMatch(ex, run[n - 1], events[n - 1], run[n]);
    }
  }

  lemma {:induction false} OrphanHasOrigin(ex: Chunk -> Extraction, run: seq<State>, events: seq<Event>, n: nat, d: Doc)
    returns (i: nat)
    requires |run| == |events| + 1 && n < |run| && FromExact(ex, run, events) && Orphaned(run[n], d)
    ensures i < n && Overtakes(run[i], run[i + 1], d)
    ensures forall j :: i < j <= n ==> d !in run[j].disk.rows && d in run[j].disk.bodies
  {
    hide Inv, Safe, Enabled, Careful, Next, BodiesMatch;
    assert n > 0;
    RunKeepsBodiesMatch(ex, run, events, n - 1);
    RunKeepsInv(ex, run, events, n - 1);
    RowsPart(ex, run[n - 1]);
    assert Step(ex, run[n - 1], events[n - 1], run[n]);
    OrphanOrigin(ex, run[n - 1], events[n - 1], run[n], d);
    hide Step, MemRowsOk, RowsOk, DoneOk;
    if Overtakes(run[n - 1], run[n], d) {
      i := n - 1;
    } else {
      i := OrphanHasOrigin(ex, run, events, n - 1, d);
    }
  }

  lemma {:induction false} OutlivedIsOrphaned(ex: Chunk -> Extraction, run: seq<State>, events: seq<Event>, i: nat,
                                              n: nat, d: Doc)
    requires |run| == |events| + 1 && i < n < |run| && FromExact(ex, run, events)
    requires Overtakes(run[i], run[i + 1], d) && StaysBare(run, i + 1, d)
    ensures Orphaned(run[n], d)
  {
    hide Inv, Safe, Enabled, Careful, Next;
    RunKeepsInv(ex, run, events, n - 1);
    assert Step(ex, run[n - 1], events[n - 1], run[n]);
    if n == i + 1 {
      OvertakenIsRolledBack(ex, run[i], events[i], run[n], d);
    } else {
      OutlivedIsOrphaned(ex, run, events, i, n - 1, d);
      RowsPart(ex, run[n - 1]);
      CommittedBodies(ex, run[n - 1], events[n - 1], run[n]);
      hide Step, RowsOk, DoneOk;
    }
  }

  /** A body is orphaned at the end of a run exactly where a durable deletion of its row overtook that of the body,
      which has stayed on disk ever since. */
  lemma OrphanedIff(ex: Chunk -> Extraction, run: seq<State>, events: seq<Event>, d: Doc)
    requires |run| == |events| + 1 && FromExact(ex, run, events)
    ensures Orphaned(run[|events|], d) <==> Outlives(run, d)
  {
    hide FromExact, Overtakes, Orphaned, StaysBare;
    if Outlives(run, d) {
      var i :| 0 <= i < |run| - 1 && Overtakes(run[i], run[i + 1], d) && StaysBare(run, i + 1, d);
      OutlivedIsOrphaned(ex, run, events, i, |events|, d);
    }
    if Orphaned(run[|events|], d) {
      var i := OrphanHasOrigin(ex, run, events, |events|, d);
      NothingSince(run, i + 1, d);
    }
  }

  lemma NothingSince(run: seq<State>, from: nat, d: Doc)
    requires forall j :: from <= j < |run| ==> d !in run[j].disk.rows && d in run[j].disk.bodies
    ensures StaysBare(run, from, d)
  {
  }

  /** With no operation open, what memory and disk hold in bodies beyond the committed ones are orphans. */
  lemma ExtraBodiesAreOrphans(ex: Chunk -> Extraction, s: State)
    requires BodiesMatch(s) && forall d :: d in s.disk.rows ==> s.disk.rows[d].journal.None?
    requires Inv(ex, s)
    ensures forall d :: d in s.disk.bodies ==> d in s.done.bodies || Orphaned(s, d)
    ensures forall d :: d in s.mem.bodies ==> d in s.done.bodies || Orphaned(s, d)
    ensures s.done.bodies <= s.mem.bodies && s.done.bodies <= s.disk.bodies
  {
    hide Inv, Clean, NoAnchors, TextOk, AnchorsOk, DoneOk, RowsOk;
    RowsPart(ex, s); SetsPart(ex, s);
  }

  lemma EndIsSafe(ex: Chunk -> Extraction, run: seq<State>, events: seq<Event>)
    requires |run| == |events| + 1 && FromExact(ex, run, events)
    ensures Inv(ex, run[|events|])
  {
    hide Inv, IsRun;
    RunKeepsInv(ex, run, events, |events|);
  }

  /** Bodies are exact at the end of a run that leaves no operation open if and only if no body outlives its row. */
  lemma BodiesAreExactIff(ex: Chunk -> Extraction, run: seq<State>, events: seq<Event>)
    requires |run| == |events| + 1 && FromExact(ex, run, events)
    requires forall d :: d in run[|events|].disk.rows ==> run[|events|].disk.rows[d].journal.None?
    ensures
      var s := run[|events|];
      && (s.disk.bodies == s.done.bodies <==> forall d :: !Outlives(run, d))
      && (s.disk.bodies == s.done.bodies ==> s.mem.bodies == s.done.bodies)
  {
    hide Outlives, FromExact, Inv, Safe, BodiesMatch, IsRun;
    var s := run[|events|];
    forall d { OrphanedIff(ex, run, events, d); }
    RunKeepsBodiesMatch(ex, run, events, |events|);
    EndIsSafe(ex, run, events);
    ExtraBodiesAreOrphans(ex, s);
    if s.disk.bodies == s.done.bodies {
      forall d ensures !Outlives(run, d) { assert !Orphaned(s, d); }
    }
  }
}
