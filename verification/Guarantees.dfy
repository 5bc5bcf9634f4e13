/** What the custom-chunk protocol guarantees over whole runs. */
module Guarantees {
  import opened Kg
  import opened Options
  import opened Protocol
  import opened Safety
  import opened InsertSteps
  import opened RollSteps
  import opened Runs
  import opened Orphans

  function Recorded(st: Stores): Committed {
    Committed(st.graph, st.text, st.anchors, st.bodies, st.rows)
  }

  /** A store nobody is changing: durable, free of journals, every object supported and anchored, edges within
      their endpoints' sources, tracking rows in step with the graph. */
  ghost predicate Settled(ex: Chunk -> Extraction, s: State) {
    && s.op.Idle? && s.disk == s.mem && s.done == Recorded(s.mem) && DoneOk(ex, s.done)
    && forall k :: k in s.mem.tracking && s.mem.tracking[k] != {} ==>
         k in s.mem.graph && s.mem.tracking[k] == s.mem.graph[k]
  }

  lemma SettledIsSafe(ex: Chunk -> Extraction, s: State)
    requires Settled(ex, s)
    ensures Inv(ex, s) && Safe(ex, s) && s.op.Idle?
  {
    hide RowTextOk, Contributed;
    assert GraphOk(ex, ViewOf(s), s.mem.graph) && TrackingOk(ex, ViewOf(s), LiveKeys(s), s.mem.tracking);
    assert TextOk(ViewOf(s), s.mem.text) && AnchorsOk(ViewOf(s), s.mem.anchors) && BodiesOk(ViewOf(s), s.mem.bodies);
    assert RowsOk(ex, s.done, s.disk.rows) && MemRowsOk(s) && OpOk(ex, s);
    hide DoneOk, RowsOk, MemRowsOk, OpOk, GraphOk, TrackingOk, TextOk, AnchorsOk, BodiesOk;
    InvFromParts(ex, s);
  }

  // ---- Safety at every reachable state ----

  /** Each cited chunk has its text row, in memory and on disk, so also after a crash. */
  ghost predicate NoDanglingProvenance(s: State, g: Provenance) {
    forall k, c :: Cites(g, k, c) ==> c in s.mem.text && c in s.disk.text
  }

  /** The citation can be found again from its document: through a durable anchor row or the durable journal. */
  ghost predicate Found(s: State, k: Key, c: Chunk) {
    || ((c.doc, k) in s.mem.anchors && (c.doc, k) in s.disk.anchors)
    || (HasJournal(s.disk.rows, c.doc)
        && c in s.disk.rows[c.doc].journal.value.chunks && k in s.disk.rows[c.doc].journal.value.cands)
  }

  /** A committed citation for which no anchor is on record. */
  ghost predicate LacksAnchor(c: Committed, k: Key, b: Chunk) {
    Cites(c.graph, k, b) && (b.doc, k) !in c.anchors
  }

  /** Every citation can be found again, except committed ones that are not anchored; and these are of the document with
      the empty id only. */
  ghost predicate Recoverable(s: State, g: Provenance) {
    && (forall k, c :: Cites(g, k, c) ==> Found(s, k, c) || LacksAnchor(s.done, k, c))
    && (forall k, c :: LacksAnchor(s.done, k, c) ==> c.doc == "")
  }

  lemma InvIsSafe(ex: Chunk -> Extraction, s: State, g: Provenance)
    requires g == s.mem.graph || g == s.disk.graph
    requires Inv(ex, s)
    ensures NoDanglingProvenance(s, g) && Recoverable(s, g) && EndpointsPresent(g)
    ensures forall k :: k in g ==> g[k] != {}
  {
    hide Inv, Recoverable, NoDanglingProvenance, AllBacked;
    InvIsRecoverable(ex, s, g);
    InvIsNotDangling(ex, s, g);
    GraphPart(ex, s);
  }

  lemma CommittedHasText(ex: Chunk -> Extraction, c: Committed, k: Key, b: Chunk)
    requires DoneOk(ex, c) && Cites(c.graph, k, b)
    ensures b in c.text
  {
    hide Contributed;
    assert RowTextOk(ex, c, b.doc, c.rows[b.doc].chunks);
  }

  lemma InvIsNotDangling(ex: Chunk -> Extraction, s: State, g: Provenance)
    requires g == s.mem.graph || g == s.disk.graph
    requires Inv(ex, s)
    ensures NoDanglingProvenance(s, g)
  {
    hide Inv, RowsOk, MemRowsOk, BodiesOk, AnchorsOk, Contributed, DoneOk, EndpointsPresent;
    GraphPart(ex, s); SetsPart(ex, s); RowsPart(ex, s);
    forall k, c | Cites(s.done.graph, k, c) { CommittedHasText(ex, s.done, k, c); }
    assert forall k, c :: Cites(g, k, c) ==> Backed(ex, ViewOf(s), k, c);
    hide GraphOk, StagedBy;
  }

  lemma BackedIsFound(ex: Chunk -> Extraction, s: State, k: Key, c: Chunk)
    requires Backed(ex, ViewOf(s), k, c) && AnchorsOk(ViewOf(s), s.mem.anchors) && AnchorsOk(ViewOf(s), s.disk.anchors)
    ensures Found(s, k, c) || LacksAnchor(s.done, k, c)
  {
    hide Contributed, Owns, Announced;
  }

  lemma CommittedIsAnchored(ex: Chunk -> Extraction, c: Committed, k: Key, b: Chunk)
    requires DoneOk(ex, c) && LacksAnchor(c, k, b)
    ensures b.doc == ""
  {
    hide RowTextOk;
  }

  lemma InvIsRecoverable(ex: Chunk -> Extraction, s: State, g: Provenance)
    requires g == s.mem.graph || g == s.disk.graph
    requires Inv(ex, s)
    ensures Recoverable(s, g)
  {
    hide Inv, DoneOk, RowsOk, MemRowsOk, TextOk, BodiesOk, AnchorsOk, Backed, Found, LacksAnchor, EndpointsPresent;
    GraphPart(ex, s); SetsPart(ex, s); RowsPart(ex, s);
    forall k, c | Cites(g, k, c) ensures Found(s, k, c) || LacksAnchor(s.done, k, c) {
      assert Backed(ex, ViewOf(s), k, c);
      BackedIsFound(ex, s, k, c);
    }
    forall k, c | LacksAnchor(s.done, k, c) { CommittedIsAnchored(ex, s.done, k, c); }
  }

  /** Write-ahead coverage and no dangling provenance, at every state of every run. */
  lemma EveryStateIsSafe(ex: Chunk -> Extraction, run: seq<State>, events: seq<Event>, i: nat)
    requires |run| == |events| + 1 && IsRun(ex, run, events) && Settled(ex, run[0]) && i < |run|
    ensures NoDanglingProvenance(run[i], run[i].mem.graph) && NoDanglingProvenance(run[i], run[i].disk.graph)
    ensures Recoverable(run[i], run[i].mem.graph) && Recoverable(run[i], run[i].disk.graph)
    ensures EndpointsPresent(run[i].mem.graph) && EndpointsPresent(run[i].disk.graph)
  {
    hide Inv, Safe, IsRun, Settled, NoDanglingProvenance, Recoverable, EndpointsPresent;
    SettledIsSafe(ex, run[0]);
    RunKeepsInv(ex, run, events, i);
    InvIsSafe(ex, run[i], run[i].mem.graph);
    InvIsSafe(ex, run[i], run[i].disk.graph);
  }

  // ---- Atomicity: a run is the sequence of its commits ----

  /** No operation is open: no durable journal. */
  ghost predicate Quiet(s: State) {
    forall d :: d in s.disk.rows ==> s.disk.rows[d].journal.None?
  }

  /** The anchors on record for the document are exactly the objects it contributes to. */
  ghost predicate AnchorsExact(c: Committed, d: Doc) {
    forall k :: (d, k) in c.anchors <==> Owns(c, d, k)
  }

  /** A document's anchors are as recorded where the record is exact; elsewhere they may be thinner, but cover what the
      document contributes to. Under the empty id they cover what is on record, and name nothing else but such
      objects. */
  ghost predicate AnchorsHold(a: set<(Doc, Key)>, c: Committed) {
    && (forall d, k :: Owns(c, d, k) && (d != "" || (d, k) in c.anchors) ==> (d, k) in a)
    && (forall d, k :: (d, k) in a ==> (d, k) in c.anchors || (d == "" && Owns(c, d, k)))
    && (forall d, k :: AnchorsExact(c, d) ==> ((d, k) in a <==> (d, k) in c.anchors))
  }

  /** The store holds what the history says; the tracking row of a graph object is missing or names exactly its sources.
      Bodies beyond the committed ones belong to no row (see module Orphans). */
  ghost predicate Holds(st: Stores, c: Committed) {
    && st.graph == c.graph && st.text == c.text && st.rows == c.rows
    && (forall k :: k in c.graph ==> Sources(st.tracking, k) == {} || st.tracking[k] == c.graph[k])
    && AnchorsHold(st.anchors, c)
    && c.bodies <= st.bodies && (forall d :: d in st.bodies && d in c.rows ==> d in c.bodies)
  }

  lemma QuietGraph(ex: Chunk -> Extraction, s: State, g: Provenance)
    requires Quiet(s) && GraphOk(ex, ViewOf(s), g)
    ensures g == s.done.graph
  {
    hide Contributed;
    forall k | k in g ensures k in s.done.graph && g[k] == s.done.graph[k] {
      assert forall c :: c in g[k] ==> Backed(ex, ViewOf(s), k, c) && Cites(s.done.graph, k, c);
      var c :| c in g[k];
      assert Cites(s.done.graph, k, c);
    }
    assert g.Keys == s.done.graph.Keys;
  }

  lemma QuietTracking(ex: Chunk -> Extraction, s: State, t: Provenance)
    requires Quiet(s) && TrackingOk(ex, ViewOf(s), LiveKeys(s), t) && s.mem.graph == s.done.graph
    ensures forall k :: k in s.done.graph ==> Sources(t, k) == {} || t[k] == s.done.graph[k]
  {
    hide Contributed;
    forall k | k in s.done.graph && k in t && t[k] != {} ensures t[k] == s.done.graph[k] {
      assert forall c :: c in t[k] ==> Backed(ex, ViewOf(s), k, c) && Cites(s.done.graph, k, c);
    }
  }

  lemma QuietRows(ex: Chunk -> Extraction, s: State)
    requires Quiet(s) && RowsOk(ex, s.done, s.disk.rows) && MemRowsOk(s)
    ensures s.mem.rows == s.disk.rows && s.disk.rows == s.done.rows
  {
    hide JournalOk, Clean;
  }

  lemma OwnedIsAnchored(ex: Chunk -> Extraction, c: Committed, d: Doc, k: Key)
    requires DoneOk(ex, c) && Owns(c, d, k)
    ensures d == "" || (d, k) in c.anchors
  {
    hide RowTextOk;
  }

  lemma QuietAnchors(ex: Chunk -> Extraction, s: State, a: set<(Doc, Key)>)
    requires Quiet(s) && AnchorsOk(ViewOf(s), a) && DoneOk(ex, s.done)
    ensures AnchorsHold(a, s.done)
  {
    hide DoneOk;
    forall d, k | Owns(s.done, d, k) { OwnedIsAnchored(ex, s.done, d, k); }
  }

  lemma QuietStore(ex: Chunk -> Extraction, s: State, st: Stores)
    requires Quiet(s) && (st == s.mem || st == s.disk)
    requires Inv(ex, s)
    ensures Holds(st, s.done)
  {
    hide Inv, GraphOk, TrackingOk, DoneOk, JournalOk;
    GraphPart(ex, s); TrackingPart(ex, s); SetsPart(ex, s); RowsPart(ex, s);
    QuietGraph(ex, s, st.graph);
    QuietGraph(ex, s, s.mem.graph);
    QuietTracking(ex, s, st.tracking);
    QuietRows(ex, s);
    QuietAnchors(ex, s, st.anchors);
    hide AnchorsHold, AnchorsOk, RowsOk, MemRowsOk;
    assert st.text == s.done.text;
  }

  /** The journal an operation must have when it commits: a function of the committed data and the submission. */
  function JournalFor(ex: Chunk -> Extraction, c: Committed, d: Doc, ids: seq<Chunk>): Journal {
    var chunks := if d in c.rows then Fresh(ids, c.rows[d].chunks, c.text) else ids;
    Journal(ids, if d in c.rows then Patch else Create, chunks, CandidatesOf(ex, Elems(chunks)))
  }

  /** The whole operation in one atomic step. */
  function Apply(ex: Chunk -> Extraction, c: Committed, d: Doc, ids: seq<Chunk>): Committed {
    CommitOf(ex, c, d, JournalFor(ex, c, d, ids))
  }

  function Replay(ex: Chunk -> Extraction, c: Committed, ops: seq<(Doc, seq<Chunk>)>): Committed
    decreases ops
  {
    if ops == [] then c else Replay(ex, Apply(ex, c, ops[0].0, ops[0].1), ops[1..])
  }

  /** From a commit in doubt: whether the next thing that the operation does, before any crash, is to revoke it. */
  predicate Revoked(events: seq<Event>) {
    events != [] && (events[0] == Ins(Revoke) || (events[0].Persist? && events[0] != Persist(Crash)
      && Revoked(events[1..])))
  }

  predicate IsCommit(events: seq<Event>)
    requires events != []
  {
    events[0] == Ins(Commit) || (events[0] == Ins(CommitInDoubt) && !Revoked(events[1..]))
  }

  /** The operations a run commits, in order; a commit in doubt counts unless it is revoked. */
  ghost function Commits(run: seq<State>, events: seq<Event>): seq<(Doc, seq<Chunk>)>
    requires |run| == |events| + 1
  {
    if events == [] then []
    else
      (if IsCommit(events) && run[0].op != Idle && HasJournal(run[0].mem.rows, run[0].op.doc)
       then [(run[0].op.doc, Jn(run[0]).op)] else [])
      + Commits(run[1..], events[1..])
  }

  /** What was committed before the run, without a commit in doubt that it revokes. */
  function CommittedBefore(s: State, events: seq<Event>): Committed {
    if s.op.Doubt? && Revoked(events) then s.op.prior else s.done
  }

  /** However often it failed and was resumed, a committing operation has the journal of a first attempt. */
  lemma JournalIsDetermined(ex: Chunk -> Extraction, s: State)
    requires Inserting(s, Ready)
    requires Inv(ex, s)
    ensures Jn(s) == JournalFor(ex, s.done, s.op.doc, Jn(s).op)
  {
    hide StoresOk, DoneOk, RowsOk, MemRowsOk, CandidatesOf, Submittable, MergeComplete;
    JournalFacts(ex, s, s.op.doc);
  }

  /** Other events change nothing that is committed, and leave a commit in doubt only where they persist something. */
  lemma OthersCommitNothing(ex: Chunk -> Extraction, s: State, e: Event, s': State)
    requires Enabled(ex, s, e) && s' == Next(ex, s, e)
    requires e != Ins(Commit) && e != Ins(CommitInDoubt) && e != Ins(Revoke)
    ensures s'.done == s.done
    ensures if e.Persist? && e != Persist(Crash) then s'.op == s.op else !s'.op.Doubt?
  {
    hide MergeValue, MergeComplete, CutDone, RebuildDone, CandidatesOf, Fresh, Classify, Pruned;
  }

  lemma CommitApplies(ex: Chunk -> Extraction, s: State, e: Event, s': State)
    requires Enabled(ex, s, e) && s' == Next(ex, s, e) && (e == Ins(Commit) || e == Ins(CommitInDoubt))
    requires Inv(ex, s)
    ensures s.op != Idle && !s.op.Doubt? && HasJournal(s.mem.rows, s.op.doc)
    ensures s'.done == Apply(ex, s.done, s.op.doc, Jn(s).op)
    ensures if e == Ins(Commit) then s'.op == Idle else s'.op.Doubt? && s'.op.prior == s.done
  {
    hide Inv, JournalFor, CommitOf, AppendNew;
    JournalIsDetermined(ex, s);
  }

  lemma StepAppliesCommit(ex: Chunk -> Extraction, s: State, e: Event, s': State, rest: seq<Event>)
    requires Step(ex, s, e, s')
    requires Inv(ex, s)
    ensures
      var events := [e] + rest;
      if IsCommit(events) then
        s.op != Idle && HasJournal(s.mem.rows, s.op.doc)
        && CommittedBefore(s', rest) == Apply(ex, CommittedBefore(s, events), s.op.doc, Jn(s).op)
      else CommittedBefore(s', rest) == CommittedBefore(s, events)
  {
    hide Inv, Careful, Apply;
    assert ([e] + rest)[1..] == rest;
    if e == Ins(Commit) || e == Ins(CommitInDoubt) {
      CommitApplies(ex, s, e, s');
      hide Enabled, Next;
    } else if e != Ins(Revoke) {
      OthersCommitNothing(ex, s, e, s');
      hide Enabled, Next;
    }
  }

  lemma TailIsRun(ex: Chunk -> Extraction, run: seq<State>, events: seq<Event>)
    requires |run| == |events| + 1 && IsRun(ex, run, events) && events != []
    ensures IsRun(ex, run[1..], events[1..])
  {
    hide Step;
    assert forall i :: 0 <= i < |events[1..]| ==> Step(ex, run[1..][i], events[1..][i], run[1..][i + 1]) by {
      forall i | 0 <= i < |events[1..]| ensures Step(ex, run[1..][i], events[1..][i], run[1..][i + 1]) {
        assert Step(ex, run[i + 1], events[i + 1], run[i + 2]);
      }
    }
  }

  lemma ReplayFirst(ex: Chunk -> Extraction, c: Committed, op: (Doc, seq<Chunk>), rest: seq<(Doc, seq<Chunk>)>)
    ensures Replay(ex, c, [op] + rest) == Replay(ex, Apply(ex, c, op.0, op.1), rest)
  {
    hide Apply;
    assert ([op] + rest)[1..] == rest;
  }

  lemma {:induction false} HistoryIsReplay(ex: Chunk -> Extraction, run: seq<State>, events: seq<Event>)
    requires |run| == |events| + 1 && IsRun(ex, run, events) && Safe(ex, run[0])
    ensures run[|events|].done == Replay(ex, CommittedBefore(run[0], events), Commits(run, events))
  {
    hide Inv, Enabled, Apply, Careful, Next, CommittedBefore;
    if events == [] {
      NothingRevoked(run[0]);
    } else {
      var rest := events[1..];
      assert events == [events[0]] + rest;
      assert Step(ex, run[0], events[0], run[1]);
      StepKeepsInv(ex, run[0], events[0]);
      StepAppliesCommit(ex, run[0], events[0], run[1], rest);
      hide Step;
      TailIsRun(ex, run, events);
      hide IsRun;
      HistoryIsReplay(ex, run[1..], rest);
      hide Replay;
      if IsCommit(events) {
        ReplayFirst(ex, CommittedBefore(run[0], events), (run[0].op.doc, Jn(run[0]).op), Commits(run[1..], rest));
      } else {
        assert Commits(run, events) == Commits(run[1..], rest);
      }
    }
  }

  lemma NothingRevoked(s: State)
    ensures CommittedBefore(s, []) == s.done
  {
  }

  lemma SettledIsExact(ex: Chunk -> Extraction, run: seq<State>, events: seq<Event>)
    requires |run| == |events| + 1 && IsRun(ex, run, events) && Settled(ex, run[0])
    ensures FromExact(ex, run, events) && CommittedBefore(run[0], events) == run[0].done == Recorded(run[0].mem)
  {
    hide Inv, Safe, IsRun, DoneOk;
    SettledIsSafe(ex, run[0]);
  }

  /** Bodies are exactly the committed ones if and only if no body has outlived its status row. */
  ghost predicate BodiesHold(run: seq<State>, s: State, c: Committed) {
    && (s.disk.bodies == c.bodies <==> forall d :: !Outlives(run, d))
    && (s.disk.bodies == c.bodies ==> s.mem.bodies == c.bodies)
  }

  /** Atomicity. Whenever no journal is left, memory and disk hold exactly what the committed operations,
      applied atomically one after another, produce; everything that failed has left nothing, but for bodies that have
      outlived their rows. */
  lemma RunsAreAtomic(ex: Chunk -> Extraction, run: seq<State>, events: seq<Event>)
    requires |run| == |events| + 1 && IsRun(ex, run, events) && Settled(ex, run[0]) && Quiet(run[|events|])
    ensures
      var s, result := run[|events|], Replay(ex, run[0].done, Commits(run, events));
      Holds(s.mem, result) && Holds(s.disk, result) && BodiesHold(run, s, result)
  {
    hide Inv, Safe, IsRun, FromExact, Settled, Holds, Commits, Outlives, CommittedBefore;
    SettledIsExact(ex, run, events);
    SettledIsSafe(ex, run[0]);
    RunKeepsInv(ex, run, events, |events|);
    HistoryIsReplay(ex, run, events);
    BodiesAreExactIff(ex, run, events);
    hide Quiet;
    QuietStore(ex, run[|events|], run[|events|].mem);
    QuietStore(ex, run[|events|], run[|events|].disk);
  }

  /** Atomic rollback. An operation that never commits, rolled back at any point of any attempt and after any
      number of crashes, leaves the provenance, the chunk rows and the status rows as they were; and the bodies too,
      exactly if none has outlived its row. */
  lemma RollbackIsAtomic(ex: Chunk -> Extraction, run: seq<State>, events: seq<Event>)
    requires |run| == |events| + 1 && IsRun(ex, run, events) && Settled(ex, run[0]) && Quiet(run[|events|])
    requires Commits(run, events) == []
    ensures Holds(run[|events|].mem, Recorded(run[0].mem)) && Holds(run[|events|].disk, Recorded(run[0].mem))
    ensures BodiesHold(run, run[|events|], Recorded(run[0].mem))
  {
    hide IsRun, Holds, Quiet, Commits, BodiesHold;
    RunsAreAtomic(ex, run, events);
  }

  /** Roll-forward idempotence. Two runs from the same store that commit the same operations end alike, whatever
      failures, crashes and resumes either went through. */
  lemma RollForwardIsIdempotent(ex: Chunk -> Extraction, run: seq<State>, events: seq<Event>,
                                run': seq<State>, events': seq<Event>)
    requires |run| == |events| + 1 && IsRun(ex, run, events) && Settled(ex, run[0]) && Quiet(run[|events|])
    requires |run'| == |events'| + 1 && IsRun(ex, run', events') && run'[0] == run[0] && Quiet(run'[|events'|])
    requires Commits(run, events) == Commits(run', events')
    ensures
      var st, st' := run[|events|].disk, run'[|events'|].disk;
      && st.graph == st'.graph && st.text == st'.text && st.rows == st'.rows
      && (forall k :: k in st.graph ==> Existing(st.graph, st.tracking, k) == Existing(st'.graph, st'.tracking, k))
      && ((forall d :: !Outlives(run, d)) && (forall d :: !Outlives(run', d)) ==> st.bodies == st'.bodies)
  {
    hide IsRun, Quiet, Settled, Outlives, AnchorsHold;
    RunsAreAtomic(ex, run, events);
    RunsAreAtomic(ex, run', events');
  }

  // ---- Repeating a committed operation ----

  lemma {:induction false} FreshShrinks(ids: seq<Chunk>, committed: seq<Chunk>, text: set<Chunk>,
                                        more: seq<Chunk>, text': set<Chunk>)
    requires Fresh(ids, committed, text) == [] && text <= text' && forall c :: c in committed ==> c in more
    ensures Fresh(ids, more, text') == []
  {
    if ids != [] {
      var b :| b in committed && b in text && b.text == ids[0].text;
      FreshShrinks(ids[1..], committed, text, more, text');
      assert exists b | b in more :: b in text' && b.text == ids[0].text;
    }
  }

  lemma {:induction false} FreshIsAbsorbed(ids: seq<Chunk>, committed: seq<Chunk>, text: set<Chunk>, more: seq<Chunk>,
                                           text': set<Chunk>)
    requires text <= text' && forall c :: c in committed ==> c in more
    requires forall c :: c in Fresh(ids, committed, text) ==> c in more && c in text'
    ensures Fresh(ids, more, text') == []
  {
    if ids != [] {
      FreshIsAbsorbed(ids[1..], committed, text, more, text');
      if b :| b in committed && b in text && b.text == ids[0].text {
        assert b in more && b in text';
      } else {
        assert ids[0] in Fresh(ids, committed, text);
      }
      assert exists b | b in more :: b in text' && b.text == ids[0].text;
    }
  }

  /** Once committed, an operation has nothing left to stage, however many operations commit after it; and it
      then changes nothing if it is submitted again. */
  lemma {:induction false} CommittedIsNoOp(ex: Chunk -> Extraction, c: Committed, d: Doc, ids: seq<Chunk>,
                                           later: seq<(Doc, seq<Chunk>)>)
    requires d in c.rows && Fresh(ids, c.rows[d].chunks, c.text) == []
    ensures
      var after := Replay(ex, c, later);
      d in after.rows && Fresh(ids, after.rows[d].chunks, after.text) == []
    decreases later
  {
    if later != [] {
      var c' := Apply(ex, c, later[0].0, later[0].1);
      hide CandidatesOf, AddContributions;
      FreshShrinks(ids, c.rows[d].chunks, c.text, c'.rows[d].chunks, c'.text);
      CommittedIsNoOp(ex, c', d, ids, later[1..]);
    }
  }

  lemma RepeatIsNoOp(ex: Chunk -> Extraction, c: Committed, d: Doc, ids: seq<Chunk>, later: seq<(Doc, seq<Chunk>)>)
    ensures
      var after := Replay(ex, Apply(ex, c, d, ids), later);
      d in after.rows && Fresh(ids, after.rows[d].chunks, after.text) == []
  {
    hide CandidatesOf, AddContributions;
    var c' := Apply(ex, c, d, ids);
    var committed := if d in c.rows then c.rows[d].chunks else [];
    var text := if d in c.rows then c.text else {};
    assert d !in c.rows ==> forall b :: b in ids ==> b in c'.text && b in c'.rows[d].chunks;
    FreshIsAbsorbed(ids, committed, text, c'.rows[d].chunks, c'.text);
    CommittedIsNoOp(ex, c', d, ids, later);
  }

  /** The document owns all of this content. */
  predicate HasContent(c: Committed, d: Doc, ids: seq<Chunk>) {
    d in c.rows && c.rows[d].status == Processed && Fresh(ids, c.rows[d].chunks, c.text) == []
  }

  /** The operation has just been committed, and not in doubt. */
  ghost predicate CommittedAt(ex: Chunk -> Extraction, s: State, d: Doc, ids: seq<Chunk>) {
    !s.op.Doubt? && exists c :: s.done == Apply(ex, c, d, ids)
  }

  /** Also if the commit in doubt is revoked. */
  ghost predicate KeepsContent(s: State, d: Doc, ids: seq<Chunk>) {
    HasContent(s.done, d, ids) && (s.op.Doubt? ==> HasContent(s.op.prior, d, ids))
  }

  lemma ApplyHasContent(ex: Chunk -> Extraction, c: Committed, d: Doc, ids: seq<Chunk>)
    ensures HasContent(Apply(ex, c, d, ids), d, ids)
  {
    hide CandidatesOf, AddContributions;
    RepeatIsNoOp(ex, c, d, ids, []);
  }

  lemma CommitKeepsContent(ex: Chunk -> Extraction, c: Committed, e: Doc, j: Journal, d: Doc, ids: seq<Chunk>)
    requires HasContent(c, d, ids)
    ensures HasContent(CommitOf(ex, c, e, j), d, ids)
  {
    hide AddContributions;
    var c' := CommitOf(ex, c, e, j);
    FreshShrinks(ids, c.rows[d].chunks, c.text, c'.rows[d].chunks, c'.text);
  }

  lemma StepKeepsContent(ex: Chunk -> Extraction, s: State, e: Event, s': State, d: Doc, ids: seq<Chunk>)
    requires Enabled(ex, s, e) && s' == Next(ex, s, e) && KeepsContent(s, d, ids)
    ensures KeepsContent(s', d, ids)
  {
    hide HasContent, CommitOf, AppendNew;
    if e == Ins(Commit) || e == Ins(CommitInDoubt) {
      CommitKeepsContent(ex, s.done, s.op.doc, Jn(s), d, ids);
    } else if e != Ins(Revoke) {
      OthersCommitNothing(ex, s, e, s');
      hide Enabled, Next;
    }
  }

  /** Content that a run has committed stays committed to its end. */
  lemma {:induction false} ContentStays(ex: Chunk -> Extraction, run: seq<State>, events: seq<Event>, i: nat, j: nat,
                                        d: Doc, ids: seq<Chunk>)
    requires |run| == |events| + 1 && IsRun(ex, run, events) && i <= j < |run| && CommittedAt(ex, run[i], d, ids)
    ensures HasContent(run[j].done, d, ids) && KeepsContent(run[j], d, ids)
    decreases j
  {
    hide Enabled, Careful, Next, Apply, HasContent;
    if i == j {
      var c :| run[i].done == Apply(ex, c, d, ids);
      ApplyHasContent(ex, c, d, ids);
    } else {
      ContentStays(ex, run, events, i, j - 1, d, ids);
      assert Step(ex, run[j - 1], events[j - 1], run[j]);
      StepKeepsContent(ex, run[j - 1], events[j - 1], run[j], d, ids);
    }
  }

  // ---- Anchors ----

  /** A commit keeps its document's anchors exact exactly when the ones it adds and the objects it contributes to agree:
      where it adds its candidates, each is contributed to, and only a self-loop relation is not; where it adds none, it
      contributes to nothing new. */
  lemma CommitAnchorsExactIff(ex: Chunk -> Extraction, c: Committed, d: Doc, j: Journal)
    requires AnchorsExact(c, d)
    requires j.cands == CandidatesOf(ex, Elems(j.chunks)) && forall b :: b in j.chunks ==> b.doc == d
    ensures AnchorsExact(CommitOf(ex, c, d, j), d) <==>
      if IsAnchored(d, j.mode) then forall k :: k in j.cands ==>
        k in ContributedBy(ex, Elems(j.chunks)) || Owns(c, d, k)
      else forall k :: k in ContributedBy(ex, Elems(j.chunks)) ==> Owns(c, d, k)
    ensures forall e :: e != d && AnchorsExact(c, e) ==> AnchorsExact(CommitOf(ex, c, d, j), e)
  {
    var c' := CommitOf(ex, c, d, j);
    forall e, k { CommitOwns(ex, c, d, j, e, k); }
    CandidatesOfCover(ex, Elems(j.chunks));
    hide CandidatesOf, Contributed, ContributedBy, AddContributions, AppendNew, Owns;
    assert forall k :: (d, k) in c'.anchors <==> (d, k) in c.anchors || (IsAnchored(d, j.mode) && k in j.cands);
  }

  lemma CommitOwns(ex: Chunk -> Extraction, c: Committed, d: Doc, j: Journal, e: Doc, k: Key)
    requires forall b :: b in j.chunks ==> b.doc == d
    ensures Owns(CommitOf(ex, c, d, j), e, k) <==> Owns(c, e, k) || (e == d && k in ContributedBy(ex, Elems(j.chunks)))
  {
    var c', staged := CommitOf(ex, c, d, j), Elems(j.chunks);
    forall b { CommittedGraph(ex, c.graph, staged, k, b); }
    hide Contributed, AddContributions, AppendNew;
    if e == d && k in ContributedBy(ex, staged) {
      var b :| b in staged && k in Contributed(ex(b));
      assert Cites(c'.graph, k, b);
    }
    if Owns(c, e, k) {
      var b :| Cites(c.graph, k, b) && b.doc == e;
      assert Cites(c'.graph, k, b);
    }
  }
}
