/** The operations of class LightRAG, in the form they run: reads and writes of the stores, one after another,
each of which may fail. Every write is logged as one step of the protocol, so the guarantees over runs hold of
these methods at every point where they can stop. */
module Operations {
  import opened Kg
  import opened Options
  import opened Protocol
  import opened Safety
  import opened InsertSteps
  import opened RollSteps
  import opened Runs
  import opened Guarantees
  import opened Moves
  import opened Orphans
  import Leak
  import MergeResult

  datatype StoreName = GraphStore | TrackingStore | TextStore | AnchorStore | BodyStore | RowStore

  const ALL_STORES := {GraphStore, TrackingStore, TextStore, AnchorStore, BodyStore, RowStore}

  datatype Outcome = Rejected | NothingToDo | Applied(flushed: bool) | Aborted

  /** The objects the edges of a chunk contribute to. */
  ghost predicate EdgeReached(st: Stores, x: (string, string), c: Chunk) {
    Reached(st, EdgeKey(x.0, x.1), c) && Reached(st, Ent(x.0), c) && Reached(st, Ent(x.1), c)
  }

  lemma ReachedAllMentions(ex: Chunk -> Extraction, st: Stores, staged: set<Chunk>)
    requires forall c, n :: c in staged && n in ex(c).nodes ==> Reached(st, Ent(n), c)
    requires forall c, x :: c in staged && x in ex(c).edges && x.0 != x.1 ==> EdgeReached(st, x, c)
    ensures MergeComplete(ex, st, staged)
  {
    hide Reached;
  }

  lemma EdgeIsContributed(ex: Chunk -> Extraction, staged: set<Chunk>, c: Chunk, x: (string, string))
    requires c in staged && x in ex(c).edges && x.0 != x.1
    ensures EdgeKey(x.0, x.1) in ContributedBy(ex, staged) && c in NewSources(ex, staged, EdgeKey(x.0, x.1))
    ensures Ent(x.0) in ContributedBy(ex, staged) && Ent(x.1) in ContributedBy(ex, staged)
  {
    var y := ex(c);
    assert EdgeKey(x.0, x.1) in Contributed(y) && Ent(x.0) in Contributed(y) && Ent(x.1) in Contributed(y);
    hide Contributed;
  }

  /** A relation is given what it reads plus the chunks that state it; and again once its row says so. */
  lemma EdgeValue(ex: Chunk -> Extraction, st: Stores, staged: set<Chunk>, e: Key, v: set<Chunk>)
    requires e in ContributedBy(ex, staged) && v != {}
    requires v <= Existing(st.graph, st.tracking, e) + NewSources(ex, staged, e)
    ensures MergeValue(ex, st, staged, e, v)
  {
    hide ContributedBy, NewSources, Existing;
  }

  /** An endpoint may be given what it reads plus any sources of its relation. */
  lemma EndpointValue(ex: Chunk -> Extraction, st: Stores, staged: set<Chunk>, e: Key, n: string, v: set<Chunk>)
    requires e in ContributedBy(ex, staged) && Touches(e, n) && Ent(n) in ContributedBy(ex, staged)
    requires e in st.tracking && st.tracking[e] != {} && v != {}
    requires v <= Existing(st.graph, st.tracking, Ent(n)) + st.tracking[e]
    ensures MergeValue(ex, st, staged, Ent(n), v)
  {
    hide ContributedBy, NewSources;
    assert forall c :: c in st.tracking[e] ==> c in Existing(st.graph, st.tracking, e);
  }

  /** No staged chunk has lost an object it had reached. */
  ghost predicate KeepsReached(st: Stores, st': Stores, staged: set<Chunk>) {
    && (forall k :: k in st.graph ==> k in st'.graph)
    && forall k, c :: c in staged && Reached(st, k, c) ==> Reached(st', k, c)
  }

  lemma KeepsReachedTrans(a: Stores, b: Stores, c: Stores, staged: set<Chunk>)
    requires KeepsReached(a, b, staged) && KeepsReached(b, c, staged)
    ensures KeepsReached(a, c, staged)
  {
    hide Reached;
  }

  /** Writing a tracking row, or the object after its row, with everything read. */
  lemma WriteKeepsReached(st: Stores, st': Stores, staged: set<Chunk>, k: Key, v: set<Chunk>)
    requires Existing(st.graph, st.tracking, k) <= v && v != {}
    requires st'.tracking == st.tracking[k := v] && (st'.graph == st.graph || st'.graph == st.graph[k := v])
    ensures KeepsReached(st, st', staged)
    ensures k in st'.graph && st'.graph[k] == v ==> forall c :: c in v ==> Reached(st', k, c)
  {
  }

  lemma KeepsReachedSelf(st: Stores, staged: set<Chunk>)
    ensures KeepsReached(st, st, staged)
  {
  }

  /** Endpoint n has the sources of relation e; nothing else in the graph has changed. */
  ghost predicate EndpointMerged(st: Stores, st': Stores, staged: set<Chunk>, n: string, e: Key) {
    && KeepsReached(st, st', staged) && Ent(n) in st'.graph
    && e in st.tracking && e in st'.tracking && st'.tracking[e] == st.tracking[e]
    && (forall c :: c in st.tracking[e] ==> Reached(st', Ent(n), c))
    && forall k :: k != Ent(n) ==>
         (k in st'.graph <==> k in st.graph) && (k in st.graph ==> st'.graph[k] == st.graph[k])
  }

  /** The four writes of a relation merge, put together. */
  lemma EdgeMerged(m0: Stores, m1: Stores, m2: Stores, m3: Stores, m4: Stores, staged: set<Chunk>, e: Key,
                   full: set<Chunk>)
    requires e.Rel? && full != {} && KeepsReached(m0, m1, staged) && e in m1.tracking && m1.tracking[e] == full
    requires EndpointMerged(m1, m2, staged, e.src, e) && EndpointMerged(m2, m3, staged, e.tgt, e)
    requires m4 == m3.(graph := m3.graph[e := full])
    ensures KeepsReached(m0, m4, staged)
    ensures forall c :: c in full * staged ==>
      Reached(m4, e, c) && Reached(m4, Ent(e.src), c) && Reached(m4, Ent(e.tgt), c)
  {
    assert KeepsReached(m3, m4, staged);
    KeepsReachedTrans(m0, m1, m2, staged);
    KeepsReachedTrans(m0, m2, m3, staged);
    KeepsReachedTrans(m0, m3, m4, staged);
  }

  lemma EdgeStaysReached(ex: Chunk -> Extraction, st: Stores, st': Stores, staged: set<Chunk>, e: Key,
                         x: (string, string), c: Chunk)
    requires KeepsReached(st, st', staged) && c in staged && x in ex(c).edges && x.0 != x.1
    requires EdgeKey(x.0, x.1) == e || EdgeReached(st, x, c)
    requires e.Rel? && e.src != e.tgt ==> forall b :: b in NewSources(ex, staged, e) ==>
      Reached(st', e, b) && Reached(st', Ent(e.src), b) && Reached(st', Ent(e.tgt), b)
    ensures EdgeReached(st', x, c)
  {
    hide Reached;
    EdgeIsContributed(ex, staged, c, x);
  }

  lemma EndpointCreated(st: Stores, st': Stores, staged: set<Chunk>, n: string, e: Key)
    requires e.Rel? && e in st.tracking && Ent(n) !in st.graph
    requires st'.graph == st.graph[Ent(n) := st.tracking[e]] && st'.tracking == st.tracking[Ent(n) := st.tracking[e]]
    ensures EndpointMerged(st, st', staged, n, e)
  {
  }

  lemma EndpointExtended(st: Stores, st': Stores, staged: set<Chunk>, n: string, e: Key)
    requires e.Rel? && e in st.tracking && Ent(n) in st.graph
    requires
      var existing := Existing(st.graph, st.tracking, Ent(n));
      var merged := existing + st.tracking[e];
      && st'.graph == st.graph[Ent(n) := merged]
      && (st'.tracking == st.tracking[Ent(n) := merged] || (st'.tracking == st.tracking && merged == existing))
    ensures EndpointMerged(st, st', staged, n, e)
  {
  }

  lemma EndpointKeepsRow(st: Stores, st': Stores, staged: set<Chunk>, n: string, e: Key)
    requires EndpointMerged(st, st', staged, n, e)
    ensures e in st.tracking && e in st'.tracking && st'.tracking[e] == st.tracking[e]
    ensures Ent(n) in st'.graph && forall k :: k in st.graph ==> k in st'.graph
  {
  }

  lemma EdgeFacts(ex: Chunk -> Extraction, staged: set<Chunk>, e: Key)
    requires e.Rel? && e.src != e.tgt && exists c, x :: c in staged && x in ex(c).edges && EdgeKey(x.0, x.1) == e
    ensures e in ContributedBy(ex, staged) && NewSources(ex, staged, e) != {} && NewSources(ex, staged, e) <= staged
    ensures Ent(e.src) in ContributedBy(ex, staged) && Ent(e.tgt) in ContributedBy(ex, staged)
  {
    var c, x :| c in staged && x in ex(c).edges && EdgeKey(x.0, x.1) == e;
    EdgeIsContributed(ex, staged, c, x);
    hide Contributed, ContributedBy, NewSources;
  }

  lemma NoRelations()
    ensures MergeResult.Relations({}) == {}
  {
  }

  lemma MentionedIsMentioning(ex: Chunk -> Extraction, staged: set<Chunk>, n: string)
    requires exists c :: c in staged && n in ex(c).nodes
    ensures MergeResult.Mentioning(ex, staged, n) != {}
  {
    var c :| c in staged && n in ex(c).nodes;
    assert c in MergeResult.Mentioning(ex, staged, n);
  }

  lemma NodeIsContributed(ex: Chunk -> Extraction, staged: set<Chunk>, c: Chunk, n: string)
    requires c in staged && n in ex(c).nodes
    ensures Ent(n) in ContributedBy(ex, staged) && c in NewSources(ex, staged, Ent(n))
  {
    assert Ent(n) in Contributed(ex(c));
    hide Contributed;
  }

  // ---- Submissions ----

  /** The chunks of a submission: empty texts and repetitions dropped, order kept. */
  function Entries(d: Doc, texts: seq<string>): (r: seq<Chunk>)
    ensures r != [] ==> Submittable(d, r)
    ensures forall t :: t in texts && t != "" <==> Custom(d, t) in r
  {
    if texts == [] then []
    else
      var init := Entries(d, texts[..|texts| - 1]);
      var t := texts[|texts| - 1];
      assert forall u :: u in texts <==> u in texts[..|texts| - 1] || u == t by {
        assert texts == texts[..|texts| - 1] + [t];
      }
      if t == "" || Custom(d, t) in init then init else init + [Custom(d, t)]
  }

  /** Each text has its place by its first occurrence. */
  lemma {:induction false} EntriesInOrder(d: Doc, texts: seq<string>, k: nat)
    requires k <= |texts|
    ensures Entries(d, texts[..k]) <= Entries(d, texts)
  {
    if k < |texts| {
      var init := texts[..|texts| - 1];
      EntriesInOrder(d, init, k);
      assert init[..k] == texts[..k];
    } else {
      assert texts[..k] == texts;
    }
  }

  /** What the operation stages: for a document that exists, only content it does not own yet. */
  function BatchOf(s: Stores, d: Doc, ids: seq<Chunk>): seq<Chunk> {
    if d in s.rows && !(s.rows[d].journal.Some? && s.rows[d].journal.value.mode == Create)
    then Fresh(ids, s.rows[d].chunks, s.text) else ids
  }

  predicate IsRejected(s: Stores, d: Doc, ids: seq<Chunk>) {
    d in s.rows && (if s.rows[d].journal.Some? then s.rows[d].journal.value.op != ids
      else s.rows[d].status != Processed)
  }

  predicate IsNoOp(s: Stores, d: Doc, ids: seq<Chunk>) {
    || ids == []
    || (d !in s.rows && d in s.bodies)
    || (d in s.rows && s.rows[d].journal.None? && s.rows[d].status == Processed
         && Fresh(ids, s.rows[d].chunks, s.text) == [])
  }

  /** The verdict on a submission, in terms of its texts. */
  lemma VerdictOnTexts(s: Stores, d: Doc, texts: seq<string>)
    ensures IsNoOp(s, d, Entries(d, texts)) <==>
      || (forall t :: t in texts ==> t == "")
      || (d !in s.rows && d in s.bodies)
      || (d in s.rows && s.rows[d].journal.None? && s.rows[d].status == Processed
          && forall t :: t in texts && t != "" ==> Stored(s.rows[d].chunks, s.text, t))
  {
    var ids := Entries(d, texts);
    if d in s.rows {
      var kept := Fresh(ids, s.rows[d].chunks, s.text);
      FreshKeepsTheRest(ids, s.rows[d].chunks, s.text);
      hide Fresh, Stored, Entries;
      assert kept != [] ==> kept[0] in kept;
      assert forall t :: t in texts && t != "" ==> Custom(d, t).text == t && Custom(d, t) in ids;
    }
    hide Entries;
    assert ids != [] ==> ids[0] in ids && ids[0] == Custom(d, ids[0].text);
  }

  /** What is committed is in memory, unless an operation is open on the document. */
  lemma ContentIsStored(ex: Chunk -> Extraction, s: State, d: Doc, ids: seq<Chunk>)
    requires !HasJournal(s.mem.rows, d)
    requires Inv(ex, s)
    ensures d in s.done.rows ==> d in s.mem.rows && s.mem.rows[d] == s.done.rows[d]
    ensures d in s.mem.rows ==> d in s.done.rows
    ensures HasContent(s.done, d, ids) <==>
      d in s.mem.rows && s.mem.rows[d].status == Processed && Fresh(ids, s.mem.rows[d].chunks, s.mem.text) == []
  {
    hide Inv, Fresh, DoneOk, Clean, NoAnchors, CandidatesOf;
    RowsPart(ex, s);
    assert d in s.disk.rows ==> JournalOk(ex, s.done, d, s.disk.rows[d]);
    if d in s.mem.rows {
      CommittedRowFacts(ex, s, d);
      FreshReadsOnlyCommittedRows(ids, s.mem.rows[d].chunks, s.mem.text, s.done.text);
    }
  }

  /** An operation that is open on the document is a different one. */
  lemma OpenOperationIsOther(ex: Chunk -> Extraction, s: State, d: Doc, ids: seq<Chunk>)
    requires HasJournal(s.mem.rows, d) && HasContent(s.done, d, ids)
    requires Inv(ex, s)
    ensures s.mem.rows[d].journal.value.op != ids
  {
    hide Inv, Fresh, CandidatesOf;
    JournalFacts(ex, s, d);
  }

  /** A call does nothing although its content is not committed exactly where a body stands without a status row. */
  lemma SwallowedIff(ex: Chunk -> Extraction, s: State, d: Doc, ids: seq<Chunk>)
    requires ids != []
    requires Inv(ex, s)
    ensures IsNoOp(s.mem, d, ids) && !HasContent(s.done, d, ids) <==> d !in s.mem.rows && d in s.mem.bodies
  {
    hide Inv, Fresh;
    if !HasJournal(s.mem.rows, d) { ContentIsStored(ex, s, d, ids); }
  }

  /** In a quiet store that a crash during a rollback has left, creating the document again does nothing. */
  lemma OrphanedBodySwallows(d: Doc, texts: seq<string>) returns (s: State)
    requires d != ""
    ensures Settled(Leak.MentionsAda, Leak.Bare(map[])) && Leak.Connected(Leak.MentionsAda, Leak.Bare(map[]), s)
    ensures s.op == Idle && Quiet(s) && s.done == Recorded(Leak.Bare(map[]).mem)
    ensures IsNoOp(s.mem, d, Entries(d, texts)) && !HasContent(s.done, d, Entries(d, texts))
  {
    s := Leak.BodyOnly(d);
    Leak.BodyOutlivesRow(d);
    hide Leak.Connected, Settled;
  }

  // ---- Purging ----

  /** Which candidates a document owns does not depend on its anchors. */
  lemma OwnershipKept(s: State, s': State)
    requires s.op != Idle && s'.op == s.op && s'.mem == s.mem.(anchors := s'.mem.anchors)
    requires HasJournal(s.mem.rows, s.op.doc)
    ensures forall k :: Owned(s', k) <==> Owned(s, k)
  {
  }

  lemma ClassifyPartitions(g: Provenance, t: Provenance, purged: set<Chunk>, cands: set<Key>, policy: Policy)
    ensures
      var p := Classify(g, t, purged, cands, policy);
      p.drop !! p.rebuild.Keys && p.drop <= g.Keys && p.rebuild.Keys <= g.Keys
  {
    hide Existing;
  }

  // ---- Left-over tracking rows ----

  /** No object that the operation will add to the graph has a tracking row naming chunks other than the
      operation's own or those of other open operations, as they are once the chunk rows are flushed. */
  ghost predicate Tidy(ex: Chunk -> Extraction, s: State, d: Doc, staged: set<Chunk>) {
    forall k, c :: LeftOver(ex, s, staged, k, c) ==> c in staged || (c.doc != d && Backed(ex, OnceFlushed(s), k, c))
  }

  ghost predicate LeftOver(ex: Chunk -> Extraction, s: State, staged: set<Chunk>, k: Key, c: Chunk) {
    && k in ContributedBy(ex, staged) && k !in LiveKeys(s)
    && (Cites(s.mem.tracking, k, c) || Cites(s.disk.tracking, k, c))
  }

  ghost function OnceFlushed(s: State): View {
    ViewOf(s).(diskText := s.mem.text)
  }

  /** What is staged for other documents, and what is known of them, is the same. */
  ghost predicate OthersSame(s: State, s': State, d: Doc) {
    && s'.done == s.done && s'.mem.graph == s.mem.graph && s'.disk.graph == s.disk.graph
    && s'.mem.tracking == s.mem.tracking && s'.disk.tracking == s.disk.tracking
    && (forall e :: e != d ==> (e in s.disk.rows <==> e in s'.disk.rows))
    && (forall e :: e != d && e in s.disk.rows ==> s'.disk.rows[e] == s.disk.rows[e])
    && (forall c: Chunk :: c.doc != d ==> (c in s.mem.text <==> c in s'.mem.text))
  }

  /** Staging and journaling leave it as it was, one way or the other. */
  lemma TidyPersists(ex: Chunk -> Extraction, s: State, s': State, d: Doc, staged: set<Chunk>)
    requires OthersSame(s, s', d)
    ensures Tidy(ex, s', d, staged) <==> Tidy(ex, s, d, staged)
  {
    hide ContributedBy, Contributed;
    assert forall k, c :: LeftOver(ex, s', staged, k, c) <==> LeftOver(ex, s, staged, k, c);
    assert forall k, c: Chunk :: c.doc != d ==>
      (Backed(ex, OnceFlushed(s'), k, c) <==> Backed(ex, OnceFlushed(s), k, c));
    hide LeftOver, Backed;
  }

  lemma TidyIsCareful(ex: Chunk -> Extraction, s: State)
    requires Inserting(s, Applying) && Tidy(ex, s, s.op.doc, Batch(s)) && s.mem.text <= s.disk.text
    requires Jn(s).mode == Create && s.op.doc != "" ==>
      s.disk.anchors == s.mem.anchors && forall k :: k in Jn(s).cands ==> (s.op.doc, k) in s.mem.anchors
    requires Inv(ex, s)
    ensures Step(ex, s, Ins(BeginMerge), s.(op := s.op.(at := Merging)))
  {
    hide Inv, ContributedBy, Contributed;
    assert forall k, c :: Backed(ex, OnceFlushed(s), k, c) ==> Backed(ex, ViewOf(s), k, c);
    hide Backed;
    forall k, c | LeftOver(ex, s, Batch(s), k, c) ensures Backed(ex, ViewOf(s), k, c) {
      if c in Batch(s) {
        TrackedIsContributed(ex, s, k, c);
        Leak.StagedAreBacked(ex, s, k, c);
      }
    }
    hide Tidy;
    assert forall k, c :: k in ContributedBy(ex, Batch(s)) - LiveKeys(s) && Cites(s.mem.tracking, k, c) ==>
      LeftOver(ex, s, Batch(s), k, c);
    assert forall k, c :: k in ContributedBy(ex, Batch(s)) - LiveKeys(s) && Cites(s.disk.tracking, k, c) ==>
      LeftOver(ex, s, Batch(s), k, c);
  }

  /** And asks for no more than the merge itself needs. */
  lemma CarefulIsTidy(ex: Chunk -> Extraction, s: State)
    requires Inserting(s, Applying) && Enabled(ex, s, Ins(BeginMerge)) && Careful(ex, s, Ins(BeginMerge))
    requires Inv(ex, s)
    ensures Tidy(ex, s, s.op.doc, Batch(s))
  {
    hide Inv, ContributedBy, Contributed;
    GraphPart(ex, s);
    RowsPart(ex, s);
    JournalFacts(ex, s, s.op.doc);
    forall k, c | LeftOver(ex, s, Batch(s), k, c)
      ensures c in Batch(s) || (c.doc != s.op.doc && Backed(ex, OnceFlushed(s), k, c))
    {
      assert Backed(ex, ViewOf(s), k, c);
    }
  }

  lemma TrackedIsContributed(ex: Chunk -> Extraction, s: State, k: Key, c: Chunk)
    requires k !in LiveKeys(s) && (Cites(s.mem.tracking, k, c) || Cites(s.disk.tracking, k, c))
    requires Inv(ex, s)
    ensures k in Contributed(ex(c))
  {
    hide Inv, Contributed, Backed;
    GraphPart(ex, s); TrackingPart(ex, s);
  }

  lemma FreshOneMore(kept: seq<Chunk>, ids: seq<Chunk>, i: nat, committed: seq<Chunk>, text: set<Chunk>,
                     contents: set<string>)
    requires i < |ids| && contents == set b | b in committed && b in text :: b.text
    ensures kept + Fresh(ids[i..], committed, text)
         == (if ids[i].text in contents then kept else kept + [ids[i]]) + Fresh(ids[i + 1..], committed, text)
  {
    var c, rest := ids[i], Fresh(ids[i + 1..], committed, text);
    assert ids[i..][1..] == ids[i + 1..] && ids[i..][0] == c;
    assert c.text in contents <==> exists b | b in committed :: b in text && b.text == c.text;
    assert Fresh(ids[i..], committed, text) == if c.text in contents then rest else [c] + rest;
    hide Fresh;
    assert kept + ([c] + rest) == kept + [c] + rest;
  }

  lemma OverlayFacts(to: Provenance, from: Provenance, keys: set<Key>)
    ensures to == from || to.Keys + from.Keys <= keys ==> Overlay(to, from, keys) == from
  {
  }

  lemma MixFacts<T>(to: set<T>, from: set<T>, part: set<T>)
    ensures to == from || to + from <= part ==> Mix(to, from, part) == from
    ensures forall x :: x in to && x in from ==> x in Mix(to, from, part)
  {
  }

  class LightRag {
    /** Entity and relation extraction. Its results are cached before they are used, so a chunk is always
        extracted alike. */
    const ex: Chunk -> Extraction

    /** Whether a store call, a flush or an extraction may fail at all. */
    const failing: bool

    var graph: Provenance
    var tracking: Provenance
    var text: set<Chunk>
    var anchors: set<(Doc, Key)>
    var bodies: set<Doc>
    var rows: map<Doc, Row>

    /** What a crash would leave. */
    var disk: Stores

    ghost var done: Protocol.Committed
    ghost var op: Op
    ghost var run: seq<State>
    ghost var events: seq<Event>

    ghost function Mem(): Stores
      reads this
    {
      Stores(graph, tracking, text, anchors, bodies, rows)
    }

    ghost function Now(): State
      reads this
    {
      State(Mem(), disk, done, op)
    }

    ghost predicate Valid()
      reads this
    {
      |run| == |events| + 1 && run[|events|] == Now() && Settled(ex, run[0]) && IsRun(ex, run, events)
    }

    /** What has happened is never rewritten. */
    twostate predicate Continues()
      reads this
    {
      old(run) <= run && old(events) <= events
    }

    constructor (extract: Chunk -> Extraction, st: Stores, mayFail: bool)
      requires Settled(extract, State(st, st, Recorded(st), Idle))
      ensures Valid() && ex == extract && failing == mayFail && Mem() == st && disk == st && op == Idle
      ensures done == Recorded(st)
    {
      ex := extract;
      failing := mayFail;
      graph, tracking, text, anchors, bodies, rows := st.graph, st.tracking, st.text, st.anchors, st.bodies, st.rows;
      disk := st;
      done := Recorded(st);
      op := Idle;
      run := [State(st, st, Recorded(st), Idle)];
      events := [];
    }

    lemma ValidIsSafe()
      requires Valid()
      ensures Inv(ex, Now())
    {
      hide Inv, Settled, IsRun;
      SettledIsSafe(ex, run[0]);
      RunKeepsInv(ex, run, events, |events|);
    }

    /** Log the step that led from the last logged state to the current one. */
    ghost method Log(e: Event)
      requires |run| == |events| + 1 && Settled(ex, run[0]) && IsRun(ex, run, events)
      requires Step(ex, run[|events|], e, Now())
      modifies `run, `events
      ensures Valid() && run == old(run) + [Now()] && events == old(events) + [e]
    {
      hide Step, Settled;
      run := run + [Now()];
      events := events + [e];
      assert forall i :: 0 <= i < |events| - 1 ==> Step(ex, old(run)[i], old(events)[i], old(run)[i + 1]);
    }

    /** A store persists part of its content on its own. */
    ghost method LogPersisted(p: Persistence)
      requires |run| == |events| + 1 && Settled(ex, run[0]) && IsRun(ex, run, events)
      requires EnabledPersist(run[|events|], p) && Now() == NextPersist(run[|events|], p)
      modifies `run, `events
      ensures Valid() && run == old(run) + [Now()] && events == old(events) + [Persist(p)]
    {
      hide Settled, IsRun;
      Log(Persist(p));
    }

    method Attempt() returns (ok: bool)
      ensures !failing ==> ok
    {
      ok := *;
      ok := ok || !failing;
    }

    // ---- Store writes ----
    //
    // Each changes one store, as one step of the protocol. A write that fails may still have taken place, and
    // any part of a store may become durable at once.

    method WriteGraph(value: Provenance, ghost e: Event) returns (ok: bool)
      requires Valid() && Step(ex, Now(), e, Now().(mem := Mem().(graph := value)))
      modifies this
      ensures Valid() && Continues()
      ensures Now() == old(Now()).(mem := old(Mem()).(graph := graph), disk := old(disk).(graph := disk.graph))
      ensures graph == old(graph) || graph == value
      ensures ok ==> graph == value
      ensures !failing ==> ok
    {
      hide Step, Settled, IsRun;
      var persisted: bool := *;
      var applied := Attempt();
      if !applied { return false; }
      graph := value;
      Log(e);
      if persisted {
        disk := disk.(graph := graph);
        LogPersisted(SyncGraph);
      }
      ok := Attempt();
    }

    method WriteTracking(value: Provenance, ghost e: Event) returns (ok: bool)
      requires Valid() && Step(ex, Now(), e, Now().(mem := Mem().(tracking := value)))
      modifies this
      ensures Valid() && Continues()
      ensures Now() == old(Now()).(mem := old(Mem()).(tracking := tracking),
        disk := old(disk).(tracking := disk.tracking))
      ensures tracking == old(tracking) || tracking == value
      ensures ok ==> tracking == value
      ensures !failing ==> ok
    {
      hide Step, Settled, IsRun;
      var persisted: set<Key> := *;
      var applied := Attempt();
      if !applied { return false; }
      tracking := value;
      Log(e);
      disk := disk.(tracking := Overlay(disk.tracking, tracking, persisted));
      LogPersisted(SyncTracking(persisted));
      ok := Attempt();
    }

    method WriteText(value: set<Chunk>, ghost e: Event) returns (ok: bool)
      requires Valid() && Step(ex, Now(), e, Now().(mem := Mem().(text := value)))
      modifies this
      ensures Valid() && Continues()
      ensures Now() == old(Now()).(mem := old(Mem()).(text := text), disk := old(disk).(text := disk.text))
      ensures text == old(text) || text == value
      ensures forall c :: c in old(text) && c in old(disk).text && c in value ==> c in disk.text
      ensures ok ==> text == value
      ensures !failing ==> ok
    {
      hide Step, Settled, IsRun;
      var persisted: set<Chunk> := *;
      var applied := Attempt();
      if !applied { return false; }
      text := value;
      Log(e);
      disk := disk.(text := Mix(disk.text, text, persisted));
      LogPersisted(SyncText(persisted));
      ok := Attempt();
    }

    method WriteAnchors(value: set<(Doc, Key)>, ghost e: Event) returns (ok: bool)
      requires Valid() && Step(ex, Now(), e, Now().(mem := Mem().(anchors := value)))
      modifies this
      ensures Valid() && Continues()
      ensures Now() == old(Now()).(mem := old(Mem()).(anchors := anchors), disk := old(disk).(anchors := disk.anchors))
      ensures anchors == old(anchors) || anchors == value
      ensures ok ==> anchors == value
      ensures !failing ==> ok
    {
      hide Step, Settled, IsRun;
      var persisted: set<(Doc, Key)> := *;
      var applied := Attempt();
      if !applied { return false; }
      anchors := value;
      Log(e);
      disk := disk.(anchors := Mix(disk.anchors, anchors, persisted));
      LogPersisted(SyncAnchors(persisted));
      ok := Attempt();
    }

    method WriteBodies(value: set<Doc>, ghost e: Event) returns (ok: bool)
      requires Valid() && Step(ex, Now(), e, Now().(mem := Mem().(bodies := value)))
      modifies this
      ensures Valid() && Continues()
      ensures Now() == old(Now()).(mem := old(Mem()).(bodies := bodies), disk := old(disk).(bodies := disk.bodies))
      ensures bodies == old(bodies) || bodies == value
      ensures ok ==> bodies == value
      ensures !failing ==> ok
    {
      hide Step, Settled, IsRun;
      var persisted: bool := *;
      var applied := Attempt();
      if !applied { return false; }
      bodies := value;
      Log(e);
      if persisted {
        disk := disk.(bodies := bodies);
        LogPersisted(SyncBodies);
      }
      ok := Attempt();
    }

    /** An upsert of doc_status is durable when it returns. One that fails may have taken effect. */
    method WriteRow(d: Doc, row: Row, ghost e: Event, ghost next: State) returns (ok: bool)
      requires Valid() && Step(ex, Now(), e, next)
      requires next.mem == Mem().(rows := rows[d := row]) && next.disk == disk.(rows := disk.rows[d := row])
      modifies this
      ensures Valid() && Continues()
      ensures Now() == next || (!ok && Now() == old(Now()))
      ensures !failing ==> ok
    {
      hide Step, Settled, IsRun;
      ok := Attempt();
      var applied: bool := *;
      if ok || applied {
        rows := rows[d := row];
        disk := disk.(rows := disk.rows[d := row]);
        done, op := next.done, next.op;
        Log(e);
      }
    }

    /** The upsert that commits. With an error it may have committed all the same: then it is in doubt. */
    method WriteCommit(d: Doc, row: Row, ghost next: State, ghost doubt: Op) returns (ok: bool)
      requires Valid() && Step(ex, Now(), Ins(Commit), next) && Step(ex, Now(), Ins(CommitInDoubt), next.(op := doubt))
      requires next.mem == Mem().(rows := rows[d := row]) && next.disk == disk.(rows := disk.rows[d := row])
      modifies this
      ensures Valid() && Continues()
      ensures if ok then Now() == next else Now() == old(Now()) || Now() == next.(op := doubt)
      ensures !failing ==> ok
    {
      hide Step, Settled, IsRun;
      ok := Attempt();
      var applied: bool := *;
      if ok || applied {
        rows := rows[d := row];
        disk := disk.(rows := disk.rows[d := row]);
        done, op := next.done, if ok then next.op else doubt;
        Log(if ok then Ins(Commit) else Ins(CommitInDoubt));
      }
    }

    /** A delete from doc_status reaches the disk with the next flush. */
    method DeleteRow(d: Doc, ghost e: Event, ghost next: State) returns (ok: bool)
      requires Valid() && Step(ex, Now(), e, next)
      requires next == Now().(mem := Mem().(rows := rows - {d}), op := next.op)
      modifies this
      ensures Valid() && Continues()
      ensures Now() == next || (!ok && Now() == old(Now()))
      ensures !failing ==> ok
    {
      hide Step, Settled, IsRun;
      ok := Attempt();
      var applied: bool := *;
      if ok || applied {
        rows := rows - {d};
        op := next.op;
        Log(e);
      }
    }

    /** The operation moves on; nothing is written. */
    ghost method Advance(e: Event, next: State)
      requires Valid() && Step(ex, Now(), e, next) && next == Now().(op := next.op)
      modifies `op, `run, `events
      ensures Valid() && Continues() && Now() == next
    {
      hide Step, Settled, IsRun;
      op := next.op;
      Log(e);
    }

    // ---- Flush barriers ----

    ghost predicate Durable(p: StoreName)
      reads this
    {
      match p
      case GraphStore => disk.graph == graph
      case TrackingStore => disk.tracking == tracking
      case TextStore => disk.text == text
      case AnchorStore => disk.anchors == anchors
      case BodyStore => disk.bodies == bodies
      case RowStore => disk.rows == rows
    }

    /** Only the named stores of the disk may have changed, and only towards memory. */
    twostate predicate FlushedOnly(parts: set<StoreName>)
      reads this
    {
      && Mem() == old(Mem()) && op == old(op) && done == old(done)
      && (forall p :: old(Durable(p)) ==> Durable(p))
      && (GraphStore !in parts ==> disk.graph == old(disk).graph)
      && (TrackingStore !in parts ==> disk.tracking == old(disk).tracking)
      && (TextStore !in parts ==> disk.text == old(disk).text)
      && (AnchorStore !in parts ==> disk.anchors == old(disk).anchors)
      && (BodyStore !in parts ==> disk.bodies == old(disk).bodies)
      && (RowStore !in parts ==> disk.rows == old(disk).rows)
      && (forall c :: c in text && c in old(disk).text ==> c in disk.text)
    }

    /** Bodies are as they were, and on disk if they were. */
    twostate predicate BodiesKept()
      reads this
    {
      bodies == old(bodies) && (old(disk).bodies == old(bodies) ==> disk.bodies == bodies)
    }

    method FlushOne(p: StoreName) returns (ok: bool)
      requires Valid()
      modifies this
      ensures Valid() && Continues() && FlushedOnly({p})
      ensures ok ==> Durable(p)
      ensures !failing ==> ok
    {
      hide Settled, IsRun, Overlay, Mix;
      ok := Attempt();
      match p {
        case GraphStore =>
          if ok { disk := disk.(graph := graph); LogPersisted(SyncGraph); }
        case TrackingStore =>
          var part: set<Key> := *;
          if ok { part := disk.tracking.Keys + tracking.Keys; }
          OverlayFacts(disk.tracking, tracking, part);
          disk := disk.(tracking := Overlay(disk.tracking, tracking, part));
          LogPersisted(SyncTracking(part));
        case TextStore =>
          var part: set<Chunk> := *;
          if ok { part := disk.text + text; }
          MixFacts(disk.text, text, part);
          disk := disk.(text := Mix(disk.text, text, part));
          LogPersisted(SyncText(part));
        case AnchorStore =>
          var part: set<(Doc, Key)> := *;
          if ok { part := disk.anchors + anchors; }
          MixFacts(disk.anchors, anchors, part);
          disk := disk.(anchors := Mix(disk.anchors, anchors, part));
          LogPersisted(SyncAnchors(part));
        case BodyStore =>
          if ok { disk := disk.(bodies := bodies); LogPersisted(SyncBodies); }
        case RowStore =>
          if ok { disk := disk.(rows := rows); LogPersisted(SyncRows); }
      }
    }

    /** Every flush runs to completion; one failure fails the barrier. */
    method Flush(parts: set<StoreName>) returns (ok: bool)
      requires Valid()
      modifies this
      ensures Valid() && Continues() && FlushedOnly(parts) && BodiesKept()
      ensures ok ==> forall p :: p in parts ==> Durable(p)
      ensures !failing ==> ok
    {
      ok := true;
      var todo := parts;
      while todo != {}
        invariant todo <= parts && Valid() && Continues() && FlushedOnly(parts)
        invariant ok ==> forall p :: p in parts - todo ==> Durable(p)
        invariant !failing ==> ok
        decreases todo
      {
        var p :| p in todo;
        var one := FlushOne(p);
        ok := ok && one;
        todo := todo - {p};
      }
      assert old(Durable(BodyStore)) ==> Durable(BodyStore);
    }

    method DiscardOne(p: StoreName)
      requires Valid() && op == Idle
      modifies this
      ensures Valid() && Continues()
      ensures rows == old(rows) && disk == old(disk) && op == Idle && done == old(done)
    {
      hide Settled, IsRun;
      match p {
        case GraphStore => graph := disk.graph; LogPersisted(DiscardGraph);
        case TrackingStore =>
          var part: set<Key> := *;
          tracking := Overlay(tracking, disk.tracking, part);
          LogPersisted(DiscardTracking(part));
        case TextStore =>
          var part: set<Chunk> := *;
          text := Mix(text, disk.text, part);
          LogPersisted(DiscardText(part));
        case AnchorStore =>
          var part: set<(Doc, Key)> := *;
          anchors := Mix(anchors, disk.anchors, part);
          LogPersisted(DiscardAnchors(part));
        case BodyStore => bodies := disk.bodies; LogPersisted(DiscardBodies);
        case RowStore =>
      }
    }

    /** An aborted insert drops what its stores still buffer; doc_status buffers nothing. */
    method DiscardBuffers()
      requires Valid() && op == Idle
      modifies this
      ensures Valid() && Continues()
      ensures rows == old(rows) && disk == old(disk) && op == Idle && done == old(done)
    {
      var todo := *;
      while todo != {}
        invariant Valid() && Continues()
        invariant rows == old(rows) && disk == old(disk) && op == Idle && done == old(done)
        decreases todo
      {
        var p: StoreName :| p in todo;
        DiscardOne(p);
        todo := todo - {p};
      }
    }

    // ---- ainsert_custom_chunks ----

    /** The candidate superset of a merge, collected chunk by chunk. */
    method CollectMergeCandidates(chunks: seq<Chunk>) returns (cands: set<Key>)
      ensures cands == CandidatesOf(ex, Elems(chunks))
    {
      hide Candidates;
      cands := {};
      for i := 0 to |chunks|
        invariant cands == CandidatesOf(ex, Elems(chunks[..i]))
      {
        assert Elems(chunks[..i + 1]) == Elems(chunks[..i]) + {chunks[i]};
        cands := cands + Candidates(ex(chunks[i]));
      }
      assert chunks[..|chunks|] == chunks;
    }

    twostate predicate OtherRowsKept(d: Doc)
      reads this
    {
      forall e :: e != d ==> (e in rows <==> e in old(rows)) && (e in rows ==> rows[e] == old(rows)[e])
    }

    /** The insert of d is still open, on the journal it started with (candidates aside). */
    twostate predicate StillInserting(d: Doc)
      reads this
      requires HasJournal(old(rows), d)
    {
      && op.Insert? && op.doc == d && HasJournal(rows, d) && done == old(done)
      && rows[d].chunks == old(rows)[d].chunks
      && rows[d].journal.value == old(rows)[d].journal.value.(cands := rows[d].journal.value.cands)
    }

    method WriteStagedRows(d: Doc) returns (ok: bool)
      requires Valid() && op == Insert(d, Staging) && HasJournal(rows, d)
      modifies this
      ensures Valid() && Continues()
      ensures Now() == old(Now()).(mem := old(Mem()).(text := text, bodies := bodies),
                                   disk := old(disk).(text := disk.text, bodies := disk.bodies))
      ensures forall c :: c in old(text) && c in old(disk).text ==> c in text && c in disk.text
      ensures text == old(text) || text == old(text) + StagedBy(d)
      ensures ok ==> StagedBy(d) <= text && (rows[d].journal.value.mode == Create ==> d in bodies)
      ensures !failing ==> ok
    {
      hide Settled, IsRun, Step, Valid;
      var j := rows[d].journal.value;
      StageTextLeads(ex, Now());
      ok := WriteText(text + Elems(j.chunks), Ins(StageText));
      if ok && j.mode == Create {
        StageBodyLeads(ex, Now());
        ok := WriteBodies(bodies + {d}, Ins(StageBody));
      }
    }

    /** Stage 1 and 2: the chunk rows, for a new document its body, and the extraction cache, all flushed before
        anything is merged. */
    method StageChunks(d: Doc) returns (ok: bool)
      requires Valid() && op == Insert(d, Staging) && HasJournal(rows, d)
      modifies this
      ensures Valid() && Continues() && StillInserting(d)
      ensures Mem() == old(Mem()).(text := text, bodies := bodies)
      ensures disk == old(disk).(text := disk.text, bodies := disk.bodies)
      ensures forall c :: c in old(text) && c in old(disk).text ==> c in text && c in disk.text
      ensures text == old(text) || text == old(text) + StagedBy(d)
      ensures ok ==> op == Insert(d, Staged) && disk.text == text
      ensures !failing ==> ok
    {
      hide Settled, IsRun, Step, Valid;
      ok := WriteStagedRows(d);
      if !ok { return; }
      ok := Attempt();  // extraction may fail
      if !ok { return; }
      ok := Flush({TextStore} + if rows[d].journal.value.mode == Create then {BodyStore} else {});
      if !ok { return; }
      assert Durable(TextStore) && (rows[d].journal.value.mode == Create ==> Durable(BodyStore));
      FinishStagingLeads(ex, Now());
      Advance(Ins(FinishStaging), Now().(op := Insert(d, Staged)));
    }

    /** The journal names every object the merge may touch before the merge begins. Also returned is the journal the
        operation goes on with, written or not. */
    method JournalMergeCandidates(d: Doc) returns (ok: bool, journal: Journal)
      requires Valid() && op == Insert(d, Staged) && HasJournal(rows, d)
      modifies this
      ensures Valid() && Continues() && StillInserting(d)
      ensures Mem() == old(Mem()).(rows := rows) && disk == old(disk).(rows := disk.rows)
      ensures OtherRowsKept(d)
      ensures forall e :: e != d ==>
        (e in disk.rows <==> e in old(disk).rows) && (e in disk.rows ==> disk.rows[e] == old(disk).rows[e])
      ensures journal == old(rows)[d].journal.value.(cands := CandidatesOf(ex, StagedBy(d)))
      ensures op == Insert(d, Staged) || (op == Insert(d, Applying) && rows[d].journal.value == journal)
      ensures ok ==> op == Insert(d, Applying) && rows[d].journal.value == journal
      ensures !failing ==> ok
    {
      hide Settled, IsRun, Step, Valid, CandidatesOf;
      var row := rows[d];
      var cands := CollectMergeCandidates(row.journal.value.chunks);
      journal := row.journal.value.(cands := cands);
      row := row.(journal := Some(journal));
      JournalCandidatesLeads(ex, Now());
      ok := WriteRow(d, row, Ins(JournalCandidates), WithRow(Now(), d, row).(op := Insert(d, Applying)));
    }

    /** For a new document the candidates are also its recovery anchors, durable before the merge; but not for one whose
        id is empty. */
    method PrewriteRecoveryAnchors(d: Doc) returns (ok: bool)
      requires Valid() && op == Insert(d, Applying) && HasJournal(rows, d) && rows[d].journal.value.mode == Create
      modifies this
      ensures Valid() && Continues()
      ensures Now() == old(Now()).(mem := old(Mem()).(anchors := anchors), disk := old(disk).(anchors := disk.anchors))
      ensures d == "" ==> ok && Now() == old(Now())
      ensures ok && d != "" ==>
        disk.anchors == anchors && forall k :: k in rows[d].journal.value.cands ==> (d, k) in anchors
      ensures !failing ==> ok
    {
      hide Settled, IsRun, Step, Valid;
      if d == "" { return true; }
      var cands := rows[d].journal.value.cands;
      PrewriteLeads(ex, Now(), true);
      ok := WriteAnchors(WithoutRow(anchors, d, true) + Rows(d, cands, true), Ins(PrewriteAnchors(true)));
      if !ok { return; }
      PrewriteLeads(ex, Now(), false);
      ok := WriteAnchors(WithoutRow(anchors, d, false) + Rows(d, cands, false), Ins(PrewriteAnchors(false)));
      if !ok { return; }
      ok := Flush({AnchorStore});
      assert ok ==> Durable(AnchorStore);
    }

    // ---- merge_nodes_and_edges ----

    ghost predicate InMerge(d: Doc)
      reads this
    {
      Valid() && op == Insert(d, Merging) && HasJournal(rows, d)
    }

    /** Only graph and tracking have changed. */
    twostate predicate KnowledgeOnly()
      reads this
    {
      Now() == old(Now()).(mem := old(Mem()).(graph := graph, tracking := tracking),
                           disk := old(disk).(graph := disk.graph, tracking := disk.tracking))
    }

    ghost function StagedBy(d: Doc): set<Chunk>
      reads this
    {
      Protocol.StagedBy(rows, d)
    }

    /** Write one object's tracking row, then the object. */
    method UpsertBoth(d: Doc, k: Key, v: set<Chunk>) returns (ok: bool)
      requires InMerge(d) && MergeValue(ex, Mem(), StagedBy(d), k, v)
      requires Existing(graph, tracking, k) <= v
      requires k.Rel? ==> Ent(k.src) in graph && Ent(k.tgt) in graph
      modifies this
      ensures InMerge(d) && Continues() && KnowledgeOnly()
      ensures ok ==> graph == old(graph)[k := v] && tracking == old(tracking)[k := v]
      ensures ok ==> KeepsReached(old(Mem()), Mem(), StagedBy(d))
      ensures !failing ==> ok
    {
      hide Settled, IsRun, Step, Valid, ContributedBy, NewSources, IncidentSources, Contributed;
      MergeTrackingLeads(ex, Now(), k, v);
      ok := WriteTracking(tracking[k := v], Ins(MergeTracking(k, v)));
      if !ok { return; }
      MergeGraphLeads(ex, Now(), k, v);
      ok := WriteGraph(graph[k := v], Ins(MergeGraph(k, v)));
    }

    /** _merge_nodes_then_upsert: a mentioned entity keeps what it read and gains the chunks that mention it. */
    method MergeNode(d: Doc, n: string) returns (ok: bool)
      requires InMerge(d) && exists c :: c in StagedBy(d) && n in ex(c).nodes
      modifies this
      ensures InMerge(d) && Continues() && KnowledgeOnly()
      ensures ok ==>
        KeepsReached(old(Mem()), Mem(), StagedBy(d)) && forall c :: c in StagedBy(d) && n in ex(c).nodes ==>
          Reached(Mem(), Ent(n), c)
      ensures
        var v := Existing(old(graph), old(tracking), Ent(n)) + MergeResult.Mentioning(ex, StagedBy(d), n);
        ok ==> graph == old(graph)[Ent(n) := v] && tracking == old(tracking)[Ent(n) := v]
      ensures !failing ==> ok
    {
      hide Settled, IsRun, Step, Valid, ContributedBy, NewSources, IncidentSources, Contributed, KeepsReached;
      var chunks := set c | c in rows[d].journal.value.chunks;
      var mentioning := set c | c in chunks && n in ex(c).nodes;
      forall c | c in mentioning ensures c in NewSources(ex, chunks, Ent(n)) { NodeIsContributed(ex, chunks, c, n); }
      ghost var c :| c in chunks && n in ex(c).nodes;
      NodeIsContributed(ex, chunks, c, n);
      assert c in mentioning;
      ok := UpsertBoth(d, Ent(n), Existing(graph, tracking, Ent(n)) + mentioning);
    }

    /** The relation e of the operation has its tracking row, and n is one of its endpoints. */
    ghost predicate AtEndpoint(d: Doc, n: string, e: Key)
      reads this
    {
      && InMerge(d) && Touches(e, n) && e in tracking && tracking[e] != {}
      && e in ContributedBy(ex, StagedBy(d))
      && Ent(n) in ContributedBy(ex, StagedBy(d))
    }

    /** A missing endpoint is created with the relation's sources, graph first. */
    method CreateEndpoint(d: Doc, n: string, e: Key) returns (ok: bool)
      requires AtEndpoint(d, n, e) && Ent(n) !in graph
      modifies this
      ensures InMerge(d) && Continues() && KnowledgeOnly()
      ensures ok ==>
        EndpointMerged(old(Mem()), Mem(), StagedBy(d), n, e) && MergeResult.EndpointWritten(old(Mem()), Mem(), n, e)
      ensures !failing ==> ok
    {
      hide Settled, IsRun, Step, Valid, ContributedBy, MergeValue, EndpointMerged, Reached;
      var k, full := Ent(n), tracking[e];
      ghost var staged := StagedBy(d);
      EndpointValue(ex, Mem(), staged, e, n, full);
      MergeGraphLeads(ex, Now(), k, full);
      ok := WriteGraph(graph[k := full], Ins(MergeGraph(k, full)));
      if ok {
        EndpointValue(ex, Mem(), staged, e, n, full);
        MergeTrackingLeads(ex, Now(), k, full);
        ok := WriteTracking(tracking[k := full], Ins(MergeTracking(k, full)));
        if ok { EndpointCreated(old(Mem()), Mem(), staged, n, e); }
      }
    }

    /** An existing endpoint is only written where the relation's sources change something. */
    method ExtendEndpoint(d: Doc, n: string, e: Key) returns (ok: bool)
      requires AtEndpoint(d, n, e) && Ent(n) in graph
      modifies this
      ensures InMerge(d) && Continues() && KnowledgeOnly()
      ensures ok ==>
        EndpointMerged(old(Mem()), Mem(), StagedBy(d), n, e) && MergeResult.EndpointWritten(old(Mem()), Mem(), n, e)
      ensures !failing ==> ok
    {
      hide Settled, IsRun, Step, Valid, ContributedBy, MergeValue, EndpointMerged, Reached;
      var k := Ent(n);
      ghost var staged := StagedBy(d);
      var existing := Existing(graph, tracking, k);
      var merged := existing + tracking[e];
      EndpointValue(ex, Mem(), staged, e, n, merged);
      ok := true;
      if merged != existing {
        MergeTrackingLeads(ex, Now(), k, merged);
        ok := WriteTracking(tracking[k := merged], Ins(MergeTracking(k, merged)));
        if !ok { return; }
        EndpointValue(ex, Mem(), staged, e, n, merged);
      }
      if merged != graph[k] {
        MergeGraphLeads(ex, Now(), k, merged);
        ok := WriteGraph(graph[k := merged], Ins(MergeGraph(k, merged)));
      }
      if ok { EndpointExtended(old(Mem()), Mem(), staged, n, e); }
    }

    method MergeEndpoint(d: Doc, n: string, e: Key) returns (ok: bool)
      requires AtEndpoint(d, n, e)
      modifies this
      ensures InMerge(d) && Continues() && KnowledgeOnly()
      ensures ok ==>
        EndpointMerged(old(Mem()), Mem(), StagedBy(d), n, e) && MergeResult.EndpointWritten(old(Mem()), Mem(), n, e)
      ensures !failing ==> ok
    {
      hide InMerge, EndpointMerged, MergeResult.EndpointWritten;
      if Ent(n) in graph { ok := ExtendEndpoint(d, n, e); } else { ok := CreateEndpoint(d, n, e); }
    }

    /** _merge_edges_then_upsert: the relation's tracking row, both endpoints, and the edge last. A self-loop is
        left alone. */
    method MergeEdge(d: Doc, e: Key, ghost st0: Stores, ghost rels: set<Key>) returns (ok: bool)
      requires InMerge(d) && e.Rel? && e !in rels && MergedSoFar(d, st0, rels)
      requires exists c, x :: c in StagedBy(d) && x in ex(c).edges && EdgeKey(x.0, x.1) == e
      modifies this
      ensures InMerge(d) && Continues() && KnowledgeOnly()
      ensures ok ==> KeepsReached(old(Mem()), Mem(), StagedBy(d))
      ensures ok && e.src != e.tgt ==> forall c :: c in NewSources(ex, StagedBy(d), e) ==>
        Reached(Mem(), e, c) && Reached(Mem(), Ent(e.src), c) && Reached(Mem(), Ent(e.tgt), c)
      ensures ok ==> MergedSoFar(d, st0, if e.src == e.tgt then rels else rels + {e})
      ensures !failing ==> ok
    {
      hide Settled, IsRun, Step, Valid, ContributedBy, NewSources, Reached, KeepsReached, EdgeKey, MergeValue;
      hide MergeResult.Merged, MergeResult.EndpointWritten, MergeResult.MentionedNames, EndpointMerged;
      if e.src == e.tgt { KeepsReachedSelf(Mem(), StagedBy(d)); return true; }
      var chunks := set c | c in rows[d].journal.value.chunks;
      EdgeFacts(ex, chunks, e);
      var full := Existing(graph, tracking, e) + NewSources(ex, chunks, e);
      ok := TrackEdge(d, e, full);
      if !ok { return; }
      ghost var m1 := Mem();
      ok := MergeEndpoint(d, e.src, e);
      if !ok { return; }
      ghost var m2 := Mem();
      EndpointKeepsRow(m1, m2, chunks, e.src, e);
      ok := MergeEndpoint(d, e.tgt, e);
      if !ok { return; }
      ghost var m3 := Mem();
      EndpointKeepsRow(m2, m3, chunks, e.tgt, e);
      EdgeValue(ex, Mem(), chunks, e, full);
      MergeGraphLeads(ex, Now(), e, full);
      ok := WriteGraph(graph[e := full], Ins(MergeGraph(e, full)));
      if !ok { return; }
      EdgeMerged(old(Mem()), m1, m2, m3, Mem(), chunks, e, full);
      MergeResult.NamesAreAll(ex, chunks);
      MergeResult.RelationMerged(ex, st0, old(Mem()), m1, m2, m3, Mem(), chunks,
        MergeResult.MentionedNames(ex, chunks), rels, e, full);
    }

    /** Every mentioned entity and these relations have been merged into the stores st0. */
    ghost predicate MergedSoFar(d: Doc, st0: Stores, rels: set<Key>)
      reads this
    {
      MergeResult.Merged(ex, st0, Mem(), StagedBy(d), MergeResult.MentionedNames(ex, StagedBy(d)), rels)
    }

    method TrackEdge(d: Doc, e: Key, full: set<Chunk>) returns (ok: bool)
      requires InMerge(d) && e in ContributedBy(ex, StagedBy(d)) && full != {}
      requires full == Existing(graph, tracking, e) + NewSources(ex, StagedBy(d), e)
      modifies this
      ensures InMerge(d) && Continues() && KnowledgeOnly() && graph == old(graph)
      ensures ok ==> KeepsReached(old(Mem()), Mem(), StagedBy(d)) && tracking == old(tracking)[e := full]
      ensures !failing ==> ok
    {
      hide Settled, IsRun, Step, Valid, ContributedBy, NewSources, Reached, KeepsReached, MergeValue;
      EdgeValue(ex, Mem(), StagedBy(d), e, full);
      MergeTrackingLeads(ex, Now(), e, full);
      ok := WriteTracking(tracking[e := full], Ins(MergeTracking(e, full)));
      if ok { WriteKeepsReached(old(Mem()), Mem(), StagedBy(d), e, full); }
    }

    method MergeNodes(d: Doc) returns (ok: bool)
      requires InMerge(d)
      modifies this
      ensures InMerge(d) && Continues() && KnowledgeOnly()
      ensures ok ==> MergedSoFar(d, old(Mem()), {})
      ensures ok ==> forall c, n :: c in StagedBy(d) && n in ex(c).nodes ==> Reached(Mem(), Ent(n), c)
      ensures !failing ==> ok
    {
      hide Settled, IsRun, Valid, Reached, MergeResult.Merged, MergeResult.Mentioning;
      MergeResult.NothingMerged(ex, Mem(), StagedBy(d));
      var chunks := set c | c in rows[d].journal.value.chunks;
      var names := set c, n | c in chunks && n in ex(c).nodes :: n;
      ok := true;
      var todo := names;
      assert names - todo == {};
      while todo != {}
        invariant todo <= names && InMerge(d) && Continues() && KnowledgeOnly() && StagedBy(d) == chunks
        invariant MergeResult.Merged(ex, old(Mem()), Mem(), chunks, names - todo, {})
        invariant forall c, n :: c in chunks && n in ex(c).nodes && n !in todo ==> Reached(Mem(), Ent(n), c)
        decreases todo
      {
        var n :| n in todo;
        ghost var before := Mem();
        ok := MergeNode(d, n);
        if !ok { return; }
        MentionedIsMentioning(ex, chunks, n);
        MergeResult.EntityMerged(ex, old(Mem()), before, Mem(), chunks, names - todo, n);
        assert names - (todo - {n}) == (names - todo) + {n};
        todo := todo - {n};
      }
      assert names - todo == MergeResult.MentionedNames(ex, chunks);
    }

    method MergeEdges(d: Doc, ghost st0: Stores) returns (ok: bool)
      requires InMerge(d) && MergedSoFar(d, st0, {})
      modifies this
      ensures InMerge(d) && Continues() && KnowledgeOnly()
      ensures ok ==> KeepsReached(old(Mem()), Mem(), StagedBy(d))
      ensures ok ==> MergedSoFar(d, st0, MergeResult.Relations(MergeResult.StatedPairs(ex, StagedBy(d))))
      ensures ok ==> forall c, x :: c in StagedBy(d) && x in ex(c).edges && x.0 != x.1 ==> EdgeReached(Mem(), x, c)
      ensures !failing ==> ok
    {
      hide Settled, IsRun, Valid, Reached, EdgeReached;
      hide EdgeKey, NewSources, MergeResult.Merged, MergeResult.Relations, MergeResult.MentionedNames;
      var chunks := set c | c in rows[d].journal.value.chunks;
      var pairs := set c, x | c in chunks && x in ex(c).edges :: EdgeKey(x.0, x.1);
      ok := true;
      var todo := pairs;
      assert pairs - todo == {} && MergeResult.Relations({}) == {} by { NoRelations(); }
      while todo != {}
        invariant todo <= pairs && InMerge(d) && Continues() && KnowledgeOnly() && StagedBy(d) == chunks
        invariant KeepsReached(old(Mem()), Mem(), chunks)
        invariant MergedSoFar(d, st0, MergeResult.Relations(pairs - todo))
        invariant forall c, x :: c in chunks && x in ex(c).edges && x.0 != x.1 && EdgeKey(x.0, x.1) !in todo ==>
          EdgeReached(Mem(), x, c)
        decreases todo
      {
        var e :| e in todo;
        ghost var before := Mem();
        MergeResult.NextPair(pairs, todo, e);
        ok := MergeEdge(d, e, st0, MergeResult.Relations(pairs - todo));
        if !ok { return; }
        forall c, x | c in chunks && x in ex(c).edges && x.0 != x.1 && EdgeKey(x.0, x.1) !in todo - {e}
          ensures EdgeReached(Mem(), x, c)
        {
          EdgeStaysReached(ex, before, Mem(), chunks, e, x, c);
        }
        todo := todo - {e};
      }
      assert pairs - todo == MergeResult.StatedPairs(ex, chunks);
    }

    /** merge_nodes_and_edges after its anchors are in place: entities first, then relations. */
    method MergeNodesAndEdges(d: Doc) returns (ok: bool)
      requires InMerge(d)
      modifies this
      ensures InMerge(d) && Continues() && KnowledgeOnly()
      ensures ok ==> MergeComplete(ex, Mem(), StagedBy(d))
      ensures ok ==> graph == Leak.MergedGraph(ex, old(Mem()), StagedBy(d))
      ensures !failing ==> ok
    {
      hide InMerge, Reached, EdgeReached, MergeComplete, MergedSoFar;
      ok := MergeNodes(d);
      if !ok { return; }
      ok := MergeEdges(d, old(Mem()));
      if !ok { return; }
      MergeIsClosedForm(d, old(Mem()));
      ReachedAllMentions(ex, Mem(), StagedBy(d));
    }

    lemma MergeIsClosedForm(d: Doc, st0: Stores)
      requires MergedSoFar(d, st0, MergeResult.Relations(MergeResult.StatedPairs(ex, StagedBy(d))))
      ensures graph == Leak.MergedGraph(ex, st0, StagedBy(d))
    {
      hide MergeResult.Merged, MergeResult.Relations;
      hide MergeResult.StatedPairs, MergeResult.MentionedNames, Leak.MergedGraph;
      var staged := StagedBy(d);
      MergeResult.NamesAreAll(ex, staged);
      MergeResult.PairsAreAll(ex, staged);
      MergeResult.MergedIsClosedForm(ex, st0, Mem(), staged, MergeResult.MentionedNames(ex, staged),
                                     MergeResult.Relations(MergeResult.StatedPairs(ex, staged)));
    }

    /** Stage 3: write-ahead anchors for a new document, the merge, and the flush of every derived store. */
    method MergeKnowledge(d: Doc) returns (ok: bool)
      requires Valid() && op == Insert(d, Applying) && HasJournal(rows, d) && Tidy(ex, Now(), d, StagedBy(d))
      requires disk.text == text
      modifies this
      ensures Valid() && Continues() && StillInserting(d) && rows == old(rows)
      ensures ok ==> op == Insert(d, Merged)
      ensures !failing ==> ok
    {
      hide Settled, IsRun, Step, Valid, MergeComplete, Tidy;
      ok := PrepareMerge(d);
      if !ok { return; }
      ok := MergeNodesAndEdges(d);
      if !ok { return; }
      ok := Flush(ALL_STORES);
      if !ok { return; }
      AllDurable();
      EndMergeLeads(ex, Now());
      Advance(Ins(EndMerge), Now().(op := Insert(d, Merged)));
    }

    method PrepareMerge(d: Doc) returns (ok: bool)
      requires Valid() && op == Insert(d, Applying) && HasJournal(rows, d) && Tidy(ex, Now(), d, StagedBy(d))
      requires disk.text == text
      modifies this
      ensures Valid() && Continues()
      ensures Now() == old(Now()).(mem := old(Mem()).(anchors := anchors), disk := old(disk).(anchors := disk.anchors),
                                   op := op)
      ensures op == if ok then Insert(d, Merging) else old(op)
      ensures !failing ==> ok
    {
      hide Settled, IsRun, Step, Valid, Tidy;
      ok := true;
      if rows[d].journal.value.mode == Create {
        ok := PrewriteRecoveryAnchors(d);
        if !ok { return; }
        TidyPersists(ex, old(Now()), Now(), d, StagedBy(d));
      }
      BeginMergeNow(d);
    }

    ghost method BeginMergeNow(d: Doc)
      requires Valid() && op == Insert(d, Applying) && HasJournal(rows, d) && Tidy(ex, Now(), d, StagedBy(d))
      requires disk.text == text
      requires rows[d].journal.value.mode == Create && d != "" ==>
        disk.anchors == anchors && forall k :: k in rows[d].journal.value.cands ==> (d, k) in anchors
      modifies `op, `run, `events
      ensures Valid() && Continues() && Now() == old(Now()).(op := Insert(d, Merging))
    {
      hide Settled, IsRun, Step, Valid, Tidy, Inv;
      ValidIsSafe();
      TidyIsCareful(ex, Now());
      Advance(Ins(BeginMerge), Now().(op := Insert(d, Merging)));
    }

    lemma AllDurable()
      requires forall p :: p in ALL_STORES ==> Durable(p)
      ensures Flushed(Now())
    {
      assert Durable(GraphStore) && Durable(TrackingStore) && Durable(TextStore)
          && Durable(AnchorStore) && Durable(BodyStore) && Durable(RowStore);
    }

    /** A patch adds its candidates to the anchors of the document; it never overwrites them. */
    method UnionDocRecoveryAnchors(d: Doc) returns (ok: bool)
      requires Valid() && op == Insert(d, Merged) && HasJournal(rows, d) && rows[d].journal.value.mode == Patch
      modifies this
      ensures Valid() && Continues()
      ensures Now() == old(Now()).(mem := old(Mem()).(anchors := anchors), disk := old(disk).(anchors := disk.anchors))
      ensures ok ==> disk.anchors == anchors && forall k :: k in rows[d].journal.value.cands ==> (d, k) in anchors
      ensures ok ==> anchors == old(anchors) + set k | k in rows[d].journal.value.cands :: (d, k)
      ensures !failing ==> ok
    {
      hide Settled, IsRun, Step, Valid;
      var cands := rows[d].journal.value.cands;
      UnionAnchorsLeads(ex, Now(), true);
      ok := WriteAnchors(anchors + Rows(d, cands, true), Ins(UnionAnchors(true)));
      if !ok { return; }
      UnionAnchorsLeads(ex, Now(), false);
      ok := WriteAnchors(anchors + Rows(d, cands, false), Ins(UnionAnchors(false)));
      if !ok { return; }
      ok := Flush({AnchorStore});
      assert ok ==> Durable(AnchorStore);
    }

    /** The operation with these submitted chunks has been committed on top of `before`. */
    ghost predicate HasCommitted(d: Doc, before: Protocol.Committed, ids: seq<Chunk>)
      reads this
    {
      done == Apply(ex, before, d, ids) && d in rows && rows[d].journal.None? && rows[d].status == Processed
    }

    /** Its commit is in doubt. */
    ghost predicate InDoubt(d: Doc, before: Protocol.Committed, row: Row)
      reads this
    {
      op == Doubt(d, before, row) && row.journal.Some? && HasCommitted(d, before, row.journal.value.op)
    }

    /** The commit: the anchors of a patch, then PROCESSED with the journal cleared, last. What is committed is
        what one uninterrupted run of the operation would have committed. */
    method CommitOperation(d: Doc) returns (ok: bool)
      requires Valid() && op == Insert(d, Merged) && HasJournal(rows, d)
      modifies this
      ensures Valid() && Continues() && OtherRowsKept(d)
      ensures !ok ==> (StillInserting(d) && rows == old(rows)) || InDoubt(d, old(done), old(rows)[d])
      ensures ok ==> op == Idle && HasCommitted(d, old(done), old(rows)[d].journal.value.op)
      ensures ok ==>
        rows == old(rows)[d := Row(Processed, AppendNew(old(rows)[d].chunks, old(rows)[d].journal.value.chunks), None)]
      ensures !failing ==> ok
    {
      hide Settled, IsRun, Step, Valid, AppendNew, CommitOf, JournalFor, Inv;
      var row := rows[d];
      if row.journal.value.mode == Patch {
        ok := UnionDocRecoveryAnchors(d);
        if !ok { return; }
      }
      FinishUnionLeads(ex, Now());
      Advance(Ins(FinishUnion), Now().(op := Insert(d, Ready)));
      ValidIsSafe();
      JournalIsDetermined(ex, Now());
      CommitLeads(ex, Now());
      CommitInDoubtLeads(ex, Now());
      var committed := Row(Processed, AppendNew(row.chunks, row.journal.value.chunks), None);
      ghost var next := WithRow(Now(), d, committed).(done := CommitOf(ex, done, d, row.journal.value), op := Idle);
      ok := WriteCommit(d, committed, next, Doubt(d, done, row));
    }

    static method ChunkEntries(d: Doc, texts: seq<string>) returns (ids: seq<Chunk>)
      ensures ids == Entries(d, texts)
    {
      ids := [];
      for i := 0 to |texts|
        invariant ids == Entries(d, texts[..i])
      {
        assert texts[..i + 1][..i] == texts[..i];
        if texts[i] != "" && Custom(d, texts[i]) !in ids {
          ids := ids + [Custom(d, texts[i])];
        }
      }
      assert texts[..|texts|] == texts;
    }

    /** Drop the chunks whose content a committed chunk row of the document already holds. */
    method FilterCommitted(ids: seq<Chunk>, committed: seq<Chunk>) returns (kept: seq<Chunk>)
      ensures kept == Fresh(ids, committed, text)
    {
      var contents := set b | b in committed && b in text :: b.text;
      kept := [];
      for i := 0 to |ids|
        invariant kept + Fresh(ids[i..], committed, text) == Fresh(ids, committed, text)
      {
        FreshOneMore(kept, ids, i, committed, text, contents);
        if ids[i].text !in contents { kept := kept + [ids[i]]; }
      }
    }

    /** The journal comes first: durable before any other store is touched. */
    method OpenJournal(d: Doc, ids: seq<Chunk>) returns (ok: bool)
      requires Valid() && op == Idle && Submittable(d, ids) && !IsRejected(Mem(), d, ids) && !IsNoOp(Mem(), d, ids)
      modifies this
      ensures Valid() && Continues()
      ensures done == old(done) && OtherRowsKept(d)
      ensures !ok ==> op == Idle && (Now() == old(Now()) || (HasJournal(rows, d) && rows[d].journal.value.op == ids))
      ensures ok ==> op == Insert(d, Staging) && HasJournal(rows, d)
      ensures ok ==> Mem() == old(Mem()).(rows := rows) && disk == old(disk).(rows := disk.rows)
      ensures ok ==> rows == old(rows)[d := rows[d]] && disk.rows == old(disk).rows[d := rows[d]]
      ensures ok ==> rows[d].journal.value.op == ids && rows[d].journal.value.chunks == BatchOf(old(Mem()), d, ids)
      ensures !failing ==> ok
    {
      hide Settled, IsRun, Step, Valid, Fresh, Submittable, IsNoOp, IsRejected, BatchOf;
      var row;
      ghost var e;
      row, e := JournaledRow(d, ids);
      ok := WriteRow(d, row, e, WithRow(Now(), d, row).(op := Insert(d, Staging)));
      if !ok { GiveUp(); }
    }

    /** The row that opens or resumes the operation. */
    method JournaledRow(d: Doc, ids: seq<Chunk>) returns (row: Row, ghost e: Event)
      requires op == Idle && Submittable(d, ids) && !IsRejected(Mem(), d, ids) && !IsNoOp(Mem(), d, ids)
      ensures Step(ex, Now(), e, WithRow(Now(), d, row).(op := Insert(d, Staging)))
      ensures row.journal.Some? && row.journal.value.op == ids && row.journal.value.chunks == BatchOf(Mem(), d, ids)
    {
      hide Step, Fresh, Submittable;
      if d !in rows {
        row := Row(Processing, [], Some(Journal(ids, Create, ids, {})));
        e := Ins(StartCreate(d, ids));
        StartCreateLeads(ex, Now(), d, ids);
      } else if rows[d].journal.None? {
        var remaining := FilterCommitted(ids, rows[d].chunks);
        row := Row(Processing, rows[d].chunks, Some(Journal(ids, Patch, remaining, {})));
        e := Ins(StartPatch(d, ids));
        StartPatchLeads(ex, Now(), d, ids);
      } else {
        var j := rows[d].journal.value;
        var chunks := ids;
        if j.mode == Patch { chunks := FilterCommitted(ids, rows[d].chunks); }
        row := Row(Processing, rows[d].chunks, Some(Journal(ids, j.mode, chunks, j.cands)));
        e := Ins(Resume(d, ids));
        ResumeLeads(ex, Now(), d, ids);
      }
    }

    /** Whatever is in progress is abandoned. */
    ghost method GiveUp()
      requires Valid()
      modifies `op, `run, `events
      ensures Valid() && Continues() && Now() == old(Now()).(op := Idle)
    {
      hide Settled, IsRun, Step, Valid;
      if op != Idle {
        AbortLeads(ex, Now());
        Advance(Ins(Abort), Now().(op := Idle));
      }
    }

    /** The journal a failed operation goes on record with: the one in its row, or the one that could not be written. */
    ghost predicate IsCurrent(d: Doc, journal: Journal)
      reads this
      requires HasJournal(rows, d)
    {
      || journal == rows[d].journal.value
      || (op == Insert(d, Staged) && journal == rows[d].journal.value.(cands := CandidatesOf(ex, StagedBy(d))))
    }

    /** How an operation on a document with these chunks fails, on top of `before`: still inserting, or with its
        commit in doubt. */
    ghost predicate IsFailing(d: Doc, before: Protocol.Committed, chunks: seq<Chunk>, journal: Journal)
      reads this
    {
      if op.Doubt? then InDoubt(d, before, op.row) && op.row.chunks == chunks && op.row.journal == Some(journal)
      else
        && op.Insert? && op.doc == d && HasJournal(rows, d) && rows[d].chunks == chunks && done == before
        && IsCurrent(d, journal)
    }

    lemma RecordFailureStep(d: Doc, before: Protocol.Committed, chunks: seq<Chunk>, journal: Journal)
      returns (e: InsertStep, next: State)
      requires IsFailing(d, before, chunks, journal)
      ensures next == WithRow(Now(), d, Row(Status.Failed, chunks, Some(journal))).(done := before, op := Idle)
      ensures Step(ex, Now(), Ins(e), next)
    {
      hide Step, CandidatesOf, Apply;
      next := WithRow(Now(), d, Row(Status.Failed, chunks, Some(journal))).(done := before, op := Idle);
      if op.Doubt? {
        e := Revoke;
        RevokeLeads(ex, Now());
      } else if journal == rows[d].journal.value {
        e := RecordFailure;
        RecordFailureLeads(ex, Now());
        assert rows[d].(status := Status.Failed) == Row(Status.Failed, chunks, Some(journal));
      } else {
        e := RecordFailureWithCandidates;
        RecordFailureWithCandidatesLeads(ex, Now());
      }
    }

    /** A failed operation keeps its journal, marked FAILED where that can be written; partial buffers are dropped. A
        commit that has taken effect is overwritten, or else stays. */
    method RecordOperationFailure(d: Doc, chunks: seq<Chunk>, journal: Journal, ghost before: Protocol.Committed)
      requires Valid() && IsFailing(d, before, chunks, journal)
      modifies this
      ensures Valid() && Continues() && op == Idle && d in rows && rows == old(rows)[d := rows[d]]
      ensures
        || HasCommitted(d, before, journal.op)
        || (done == before && HasJournal(rows, d) && rows[d].chunks == chunks
            && rows[d].journal.value.(cands := {}) == journal.(cands := {}))
      ensures !failing ==> done == before && rows[d] == Row(Status.Failed, chunks, Some(journal))
    {
      hide Settled, IsRun, Step, Valid, CandidatesOf, Apply;
      var row := Row(Status.Failed, chunks, Some(journal));
      ghost var e, next := RecordFailureStep(d, before, chunks, journal);
      var _ := WriteRow(d, row, Ins(e), next);
      GiveUp();
      DiscardBuffers();
    }

    lemma StagedIsOwn(d: Doc)
      requires Valid() && HasJournal(rows, d)
      ensures forall c :: c in StagedBy(d) ==> c.doc == d
    {
      hide Valid, Inv;
      ValidIsSafe();
      OwnChunks(ex, Now(), d);
    }

    /** From the open journal to the commit. */
    method ApplyOperation(d: Doc) returns (ok: bool, journal: Journal)
      requires Valid() && op == Insert(d, Staging) && HasJournal(rows, d) && Tidy(ex, Now(), d, StagedBy(d))
      modifies this
      ensures Valid() && Continues()
      ensures !ok ==>
        IsFailing(d, old(done), old(rows)[d].chunks, journal) && journal.op == old(rows)[d].journal.value.op
      ensures ok ==> op == Idle && HasCommitted(d, old(done), old(rows)[d].journal.value.op)
      ensures OtherRowsKept(d)
      ensures !failing ==> ok
    {
      hide Valid, Tidy, Apply;
      ghost var before := Now();
      journal := rows[d].journal.value;
      ok := StageChunks(d);
      if !ok { return; }
      ok, journal := JournalMergeCandidates(d);
      if !ok { return; }
      StagedIsOwn(d);
      TidyPersists(ex, before, Now(), d, StagedBy(d));
      ok := MergeKnowledge(d);
      if !ok { return; }
      ok := CommitOperation(d);
    }

    /** Whether the operation may start: a verdict, or none if it may. */
    method Resolve(d: Doc, ids: seq<Chunk>) returns (verdict: Option<Outcome>)
      ensures verdict ==
        if IsNoOp(Mem(), d, ids) then Some(NothingToDo) else if IsRejected(Mem(), d, ids) then Some(Rejected) else None
      ensures verdict == Some(NothingToDo) <==>
        || ids == []
        || (d !in rows && d in bodies)
        || (d in rows && rows[d].journal.None? && rows[d].status == Processed
            && forall c :: c in ids ==> Stored(rows[d].chunks, text, c.text))
      ensures verdict == Some(Rejected) <==>
        ids != [] && d in rows
        && if rows[d].journal.Some? then rows[d].journal.value.op != ids else rows[d].status != Processed
    {
      hide Stored;
      if ids == [] { return Some(NothingToDo); }
      if d in rows && rows[d].journal.Some? {
        return if rows[d].journal.value.op != ids then Some(Rejected) else None;
      }
      if d !in rows {
        return if d in bodies then Some(NothingToDo) else None;
      }
      if rows[d].status != Processed { return Some(Rejected); }
      var remaining := FilterCommitted(ids, rows[d].chunks);
      FreshKeepsTheRest(ids, rows[d].chunks, text);
      hide Fresh;
      assert remaining != [] ==> remaining[0] in remaining;
      return if remaining == [] then Some(NothingToDo) else None;
    }

    /** An operation that may start either commits, or fails with its journal kept. */
    method RunOperation(d: Doc, ids: seq<Chunk>) returns (outcome: Outcome)
      requires Valid() && op == Idle && Submittable(d, ids) && !IsNoOp(Mem(), d, ids) && !IsRejected(Mem(), d, ids)
      requires Tidy(ex, Now(), d, Elems(BatchOf(Mem(), d, ids)))
      modifies this
      ensures Valid() && Continues() && op == Idle && (outcome.Applied? || outcome == Aborted)
      ensures outcome.Applied? ==> HasCommitted(d, old(done), ids)
      ensures outcome == Aborted ==>
        || HasCommitted(d, old(done), ids)
        || (done == old(done) && (Now() == old(Now()) || (HasJournal(rows, d) && rows[d].journal.value.op == ids)))
      ensures OtherRowsKept(d)
      ensures !failing ==> outcome == Applied(true)
    {
      hide Valid, Tidy, Apply, Submittable, IsNoOp, IsRejected, BatchOf;
      ghost var before := Now();
      var ok := OpenJournal(d, ids);
      if !ok { return Aborted; }
      TidyPersists(ex, before, Now(), d, StagedBy(d));
      var chunks, journal := rows[d].chunks, rows[d].journal.value;
      ok, journal := ApplyOperation(d);
      if !ok {
        RecordOperationFailure(d, chunks, journal, before.done);
        return Aborted;
      }
      var flushed := FlushOrDiscard();
      return Applied(flushed);
    }

    /** At some point of its past the store had just committed this operation. */
    ghost predicate WasCommitted(d: Doc, ids: seq<Chunk>)
      reads this
    {
      exists i :: 0 <= i < |run| && CommittedAt(ex, run[i], d, ids)
    }

    /** Then whatever the store has gone through since, the operation has nothing left to do: it is refused while
        another one is open on the document, and otherwise does nothing. */
    lemma RepeatDoesNothing(d: Doc, ids: seq<Chunk>)
      requires Valid() && WasCommitted(d, ids)
      ensures ids != [] && HasJournal(rows, d) ==> !IsNoOp(Mem(), d, ids) && IsRejected(Mem(), d, ids)
      ensures ids == [] || !HasJournal(rows, d) ==> IsNoOp(Mem(), d, ids)
    {
      hide Inv, Settled, IsRun, Fresh, CommittedAt;
      var i :| 0 <= i < |run| && CommittedAt(ex, run[i], d, ids);
      ContentStays(ex, run, events, i, |events|, d, ids);
      ValidIsSafe();
      if HasJournal(rows, d) { OpenOperationIsOther(ex, Now(), d, ids); } else { ContentIsStored(ex, Now(), d, ids); }
    }

    lemma OpenOperationIsNotEmpty(d: Doc)
      requires Valid()
      ensures HasJournal(rows, d) ==> rows[d].journal.value.op != []
    {
      hide Settled, IsRun, Inv;
      ValidIsSafe();
      if HasJournal(rows, d) { JournalFacts(ex, Now(), d); }
    }

    lemma JustCommitted(d: Doc, before: Protocol.Committed, ids: seq<Chunk>)
      requires Valid() && HasCommitted(d, before, ids) && op == Idle
      ensures WasCommitted(d, ids)
    {
      hide Settled, IsRun, Apply;
      assert CommittedAt(ex, run[|events|], d, ids);
    }

    method FlushOrDiscard() returns (flushed: bool)
      requires Valid() && op == Idle
      modifies this
      ensures Valid() && Continues() && op == Idle && rows == old(rows) && done == old(done)
      ensures !failing ==> flushed
    {
      hide Valid;
      flushed := Flush(ALL_STORES);
      if !flushed { DiscardBuffers(); }
    }

    /** ainsert_custom_chunks. A submission is rejected exactly if another operation is open on the document, or none is
        and the document is not processed; it does nothing exactly if it is empty, or there is a body without a row, or
        the processed document owns all of its content. Neither changes anything. Otherwise, and also where it resumes a
        failed operation, it commits exactly as one first and uninterrupted attempt would, or fails with its journal
        kept. Once it has committed, the same call is refused or does nothing for ever. */
    method InsertCustomChunks(d: Doc, texts: seq<string>) returns (outcome: Outcome)
      requires Valid() && op == Idle
      requires Tidy(ex, Now(), d, Elems(BatchOf(Mem(), d, Entries(d, texts))))
      modifies this
      ensures Valid() && Continues() && op == Idle
      ensures outcome == NothingToDo <==>
        || (forall t :: t in texts ==> t == "")
        || (d !in old(rows) && d in old(bodies))
        || (d in old(rows) && old(rows)[d].journal.None? && old(rows)[d].status == Processed
            && forall t :: t in texts && t != "" ==> Stored(old(rows)[d].chunks, old(text), t))
      ensures outcome == Rejected <==>
        && (exists t :: t in texts && t != "") && d in old(rows)
        && if old(rows)[d].journal.Some? then old(rows)[d].journal.value.op != Entries(d, texts)
           else old(rows)[d].status != Processed
      ensures HasJournal(old(rows), d) && old(rows)[d].journal.value.op == Entries(d, texts) && !failing ==>
        outcome == Applied(true)
      ensures outcome == NothingToDo || outcome == Rejected ==> Now() == old(Now())
      ensures outcome.Applied? ==> HasCommitted(d, old(done), Entries(d, texts)) && WasCommitted(d, Entries(d, texts))
      ensures outcome.Applied? ==> forall t :: t in texts && t != "" ==> d in rows && Stored(rows[d].chunks, text, t)
      ensures old(WasCommitted(d, Entries(d, texts))) ==>
        outcome == if Entries(d, texts) != [] && HasJournal(old(rows), d) then Rejected else NothingToDo
      ensures outcome == Aborted ==>
        || HasCommitted(d, old(done), Entries(d, texts))
        || (done == old(done)
            && (Now() == old(Now()) || (HasJournal(rows, d) && rows[d].journal.value.op == Entries(d, texts))))
      ensures OtherRowsKept(d)
      ensures !failing ==> outcome == NothingToDo || outcome == Rejected || outcome == Applied(true)
    {
      hide Valid, Tidy, Apply, Submittable, IsRejected, BatchOf, Fresh, WasCommitted;
      hide Stored;
      var ids := ChunkEntries(d, texts);
      var verdict := Resolve(d, ids);
      VerdictOnTexts(Mem(), d, texts);
      OpenOperationIsNotEmpty(d);
      if WasCommitted(d, ids) { RepeatDoesNothing(d, ids); }
      if verdict.Some? { return verdict.value; }
      outcome := RunOperation(d, ids);
      if outcome.Applied? {
        JustCommitted(d, old(done), ids);
        RepeatDoesNothing(d, ids);
        VerdictOnTexts(Mem(), d, texts);
      }
    }

    // ---- _purge_kg_contributions, as a rollback runs it ----

    ghost predicate InRoll(d: Doc, plan: Plan, stage: RollPhase)
      reads this
    {
      Valid() && op == Roll(d, plan, stage) && HasJournal(rows, d) && plan.drop !! plan.rebuild.Keys
    }

    /** The tracking rows of what stays get their remaining sources. */
    method RepointTracking(d: Doc, plan: Plan) returns (ok: bool)
      requires InRoll(d, plan, Cutting)
      modifies this
      ensures InRoll(d, plan, Cutting) && Continues() && KnowledgeOnly() && graph == old(graph)
      ensures ok ==> forall k :: k in plan.rebuild ==> k in tracking && tracking[k] == plan.rebuild[k]
      ensures !failing ==> ok
    {
      hide Settled, IsRun, Step, Valid;
      ok := true;
      var todo := plan.rebuild.Keys;
      while todo != {}
        invariant todo <= plan.rebuild.Keys
        invariant InRoll(d, plan, Cutting) && Continues() && KnowledgeOnly() && graph == old(graph)
        invariant forall k :: k in plan.rebuild && k !in todo ==> k in tracking && tracking[k] == plan.rebuild[k]
        decreases todo
      {
        var k :| k in todo;
        RepointLeads(ex, Now(), k);
        ok := WriteTracking(tracking[k := plan.rebuild[k]], Rol(Repoint(k)));
        if !ok { return; }
        todo := todo - {k};
      }
    }

    /** Delete tracking rows; keys must be dropped objects, or edges of dropped nodes. */
    method ForgetRows(d: Doc, plan: Plan, keys: set<Key>) returns (ok: bool)
      requires InRoll(d, plan, Cutting)
      requires forall k :: k in keys ==>
        k in plan.drop || (k in graph && exists n | n in plan.drop :: n.Ent? && Touches(k, n.name))
      modifies this
      ensures InRoll(d, plan, Cutting) && Continues() && KnowledgeOnly() && graph == old(graph)
      ensures forall k :: k !in keys && k in old(tracking) ==> k in tracking && tracking[k] == old(tracking)[k]
      ensures !failing ==> ok
    {
      hide Settled, IsRun, Step, Valid;
      ok := true;
      var todo := keys;
      while todo != {}
        invariant todo <= keys
        invariant InRoll(d, plan, Cutting) && Continues() && KnowledgeOnly() && graph == old(graph)
        invariant forall k :: k !in keys && k in old(tracking) ==> k in tracking && tracking[k] == old(tracking)[k]
        decreases todo
      {
        var k :| k in todo;
        ForgetLeads(ex, Now(), k);
        ok := WriteTracking(tracking - {k}, Rol(Forget(k)));
        if !ok { return; }
        todo := todo - {k};
      }
    }

    method RemoveEdges(d: Doc, plan: Plan) returns (ok: bool)
      requires InRoll(d, plan, Cutting)
      modifies this
      ensures InRoll(d, plan, Cutting) && Continues() && KnowledgeOnly() && tracking == old(tracking)
      ensures forall k :: k in graph ==> k in old(graph)
      ensures ok ==> forall k :: k in plan.drop && k.Rel? ==> k !in graph
      ensures !failing ==> ok
    {
      hide Settled, IsRun, Step, Valid;
      ok := true;
      var todo := set k | k in plan.drop && k.Rel?;
      while todo != {}
        invariant todo <= plan.drop && forall k :: k in todo ==> k.Rel?
        invariant InRoll(d, plan, Cutting) && Continues() && KnowledgeOnly() && tracking == old(tracking)
        invariant forall k :: k in graph ==> k in old(graph)
        invariant forall k :: k in plan.drop && k.Rel? && k !in todo ==> k !in graph
        decreases todo
      {
        var k :| k in todo;
        CutEdgeLeads(ex, Now(), k);
        ok := WriteGraph(graph - {k}, Rol(CutEdge(k)));
        if !ok { return; }
        todo := todo - {k};
      }
    }

    /** Removing a node takes its edges with it. */
    method RemoveNodes(d: Doc, plan: Plan) returns (ok: bool)
      requires InRoll(d, plan, Cutting)
      modifies this
      ensures InRoll(d, plan, Cutting) && Continues() && KnowledgeOnly() && tracking == old(tracking)
      ensures forall k :: k in graph ==> k in old(graph)
      ensures ok ==> forall n, k :: Ent(n) in plan.drop && k in graph ==> k != Ent(n) && !Touches(k, n)
      ensures !failing ==> ok
    {
      hide Settled, IsRun, Step, Valid;
      ok := true;
      var todo := set k | k in plan.drop && k.Ent?;
      while todo != {}
        invariant todo <= plan.drop && forall k :: k in todo ==> k.Ent?
        invariant InRoll(d, plan, Cutting) && Continues() && KnowledgeOnly() && tracking == old(tracking)
        invariant forall k :: k in graph ==> k in old(graph)
        invariant forall n, k :: Ent(n) in plan.drop && Ent(n) !in todo && k in graph ==> k != Ent(n) && !Touches(k, n)
        decreases todo
      {
        var k :| k in todo;
        CutNodeLeads(ex, Now(), k.name);
        ok := WriteGraph(RemoveNode(graph, k.name), Rol(CutNode(k.name)));
        if !ok { return; }
        todo := todo - {k};
      }
    }

    /** Steps 2 to 5: tracking rows, then edges, then nodes with their residual edges, then the flush. */
    method CutKnowledge(d: Doc, plan: Plan) returns (ok: bool)
      requires InRoll(d, plan, Cutting)
      modifies this
      ensures Valid() && Continues() && op.Roll? && op.doc == d && rows == old(rows) && done == old(done)
      ensures ok ==> InRoll(d, plan, Rebuilding)
      ensures BodiesKept()
      ensures !failing ==> ok
    {
      hide Settled, IsRun, Step, Valid;
      ok := RepointTracking(d, plan);
      if !ok { return; }
      ok := CutObjects(d, plan);
      if !ok { return; }
      ok := Flush(ALL_STORES);
      if !ok { return; }
      AllDurable();
      EndCutLeads(ex, Now());
      Advance(Rol(EndCut), Now().(op := Roll(d, plan, Rebuilding)));
    }

    /** Edges without remaining sources, then nodes without, each with its tracking row. */
    method CutObjects(d: Doc, plan: Plan) returns (ok: bool)
      requires InRoll(d, plan, Cutting)
      requires forall k :: k in plan.rebuild ==> k in tracking && tracking[k] == plan.rebuild[k]
      modifies this
      ensures InRoll(d, plan, Cutting) && Continues() && KnowledgeOnly()
      ensures ok ==> CutDone(Mem(), plan)
      ensures !failing ==> ok
    {
      hide Valid;
      ok := RemoveEdges(d, plan);
      if !ok { return; }
      ok := ForgetRows(d, plan, set k | k in plan.drop && k.Rel?);
      if !ok { return; }
      ok := CutNodes(d, plan);
    }

    method CutNodes(d: Doc, plan: Plan) returns (ok: bool)
      requires InRoll(d, plan, Cutting) && forall k :: k in plan.drop && k.Rel? ==> k !in graph
      requires forall k :: k in plan.rebuild ==> k in tracking && tracking[k] == plan.rebuild[k]
      modifies this
      ensures InRoll(d, plan, Cutting) && Continues() && KnowledgeOnly()
      ensures ok ==> CutDone(Mem(), plan)
      ensures !failing ==> ok
    {
      hide Valid;
      var residual := set k | k in graph && exists n | n in plan.drop :: n.Ent? && Touches(k, n.name);
      ok := ForgetRows(d, plan, residual);
      if !ok { return; }
      ok := RemoveNodes(d, plan);
      if !ok { return; }
      ok := ForgetRows(d, plan, set k | k in plan.drop && k.Ent?);
    }

    /** rebuild_knowledge_from_chunks: what is still in the graph gets exactly its remaining sources. */
    method RebuildObjects(d: Doc, plan: Plan) returns (ok: bool)
      requires InRoll(d, plan, Rebuilding)
      modifies this
      ensures InRoll(d, plan, Rebuilding) && Continues() && KnowledgeOnly()
      ensures ok ==> RebuildDone(Mem(), plan)
      ensures !failing ==> ok
    {
      hide Settled, IsRun, Step, Valid;
      ok := true;
      var todo := plan.rebuild.Keys;
      while todo != {}
        invariant todo <= plan.rebuild.Keys && InRoll(d, plan, Rebuilding) && Continues() && KnowledgeOnly()
        invariant forall k :: k in plan.rebuild && k !in todo && k in graph ==> graph[k] == plan.rebuild[k]
        decreases todo
      {
        var k :| k in todo;
        if k in graph {
          RebuildTrackingLeads(ex, Now(), k);
          ok := WriteTracking(tracking[k := plan.rebuild[k]], Rol(RebuildTracking(k)));
          if !ok { return; }
          RebuildGraphLeads(ex, Now(), k);
          ok := WriteGraph(graph[k := plan.rebuild[k]], Rol(RebuildGraph(k)));
          if !ok { return; }
        }
        todo := todo - {k};
      }
    }

    /** Step 6, with its flush: repaired and durable before any chunk disappears. */
    method RebuildKnowledge(d: Doc, plan: Plan) returns (ok: bool)
      requires InRoll(d, plan, Rebuilding)
      modifies this
      ensures Valid() && Continues() && op.Roll? && op.doc == d && rows == old(rows) && done == old(done)
      ensures ok ==> InRoll(d, plan, Rebuilt)
      ensures BodiesKept()
      ensures !failing ==> ok
    {
      hide Settled, IsRun, Step, Valid, RebuildDone;
      ok := RebuildObjects(d, plan);
      if !ok { return; }
      ok := Flush(ALL_STORES);
      if !ok { return; }
      AllDurable();
      EndRebuildLeads(ex, Now());
      Advance(Rol(EndRebuild), Now().(op := Roll(d, plan, Rebuilt)));
    }

    /** Step 7: the chunks themselves. */
    method DeleteChunks(d: Doc, plan: Plan) returns (ok: bool)
      requires InRoll(d, plan, Rebuilt)
      modifies this
      ensures Valid() && Continues() && op.Roll? && op.doc == d && rows == old(rows) && done == old(done)
      ensures ok ==> InRoll(d, plan, Emptied)
      ensures BodiesKept()
      ensures !failing ==> ok
    {
      hide Settled, IsRun, Step, Valid;
      DropTextLeads(ex, Now());
      ok := WriteText(text - (set c | c in rows[d].journal.value.chunks), Rol(DropText));
      if !ok { return; }
      ok := Flush({TextStore});
      if !ok { return; }
      assert Durable(TextStore);
      FinishDropLeads(ex, Now());
      Advance(Rol(FinishDrop), Now().(op := Roll(d, plan, Emptied)));
    }

    /** Step 8, for a new document only: its anchor rows, last. */
    method DeleteAnchors(d: Doc, plan: Plan) returns (ok: bool)
      requires InRoll(d, plan, Emptied) && rows[d].journal.value.mode == Create
      modifies this
      ensures Valid() && Continues() && op.Roll? && op.doc == d && rows == old(rows) && done == old(done)
      ensures ok ==> InRoll(d, plan, Unanchored)
      ensures BodiesKept()
      ensures !failing ==> ok
    {
      hide Settled, IsRun, Step, Valid;
      DropAnchorsLeads(ex, Now(), true);
      ok := WriteAnchors(WithoutRow(anchors, d, true), Rol(DropAnchors(true)));
      if !ok { return; }
      DropAnchorsLeads(ex, Now(), false);
      ok := WriteAnchors(WithoutRow(anchors, d, false), Rol(DropAnchors(false)));
      if !ok { return; }
      ok := Flush({AnchorStore});
      if !ok { return; }
      assert Durable(AnchorStore);
      FinishAnchorsLeads(ex, Now());
      Advance(Rol(FinishAnchors), Now().(op := Roll(d, plan, Unanchored)));
    }

    /** The purge of the staged chunks, up to the point where nothing cites them and their rows are gone. */
    method PurgeKgContributions(d: Doc) returns (ok: bool, plan: Plan)
      requires Valid() && op == Idle && HasJournal(rows, d)
      modifies this
      ensures Valid() && Continues() && op.Roll? && op.doc == d && rows == old(rows) && done == old(done)
      ensures ok ==> InRoll(d, plan, if rows[d].journal.value.mode == Create then Unanchored else Emptied)
      ensures BodiesKept()
      ensures !failing ==> ok
    {
      hide Settled, IsRun, Step, Valid, Classify;
      var j := rows[d].journal.value;
      plan := ClassifyCandidates(graph, tracking, Elems(j.chunks), j.cands, Rollback);
      ClassifyPartitions(graph, tracking, Elems(j.chunks), j.cands, Rollback);
      StartRollbackLeads(ex, Now(), d);
      Advance(Rol(StartRollback(d)), Now().(op := Roll(d, plan, Cutting)));
      ok := CutKnowledge(d, plan);
      if !ok { return; }
      ok := RebuildKnowledge(d, plan);
      if !ok { return; }
      ok := DeleteChunks(d, plan);
      if !ok || j.mode == Patch { return; }
      ok := DeleteAnchors(d, plan);
    }

    // ---- _rollback_one_custom_chunk_patch ----

    /** The rows of one kind that the document no longer earns through a chunk it owns. */
    method UnearnedAnchors(d: Doc, plan: Plan, entities: bool) returns (gone: set<(Doc, Key)>)
      requires InRoll(d, plan, Emptied)
      ensures gone == Pruned(Now(), entities)
    {
      var j := rows[d].journal.value;
      var owned := set c | c in rows[d].chunks && c !in j.chunks;
      gone := {};
      var mine := set x | x in anchors && x.0 == d && x.1.Ent? == entities;
      var todo := mine;
      while todo != {}
        invariant todo <= mine
        invariant gone == set x | x in mine && x !in todo && x.1 in j.cands && !Owned(Now(), x.1)
        decreases todo
      {
        var x :| x in todo;
        var earned := Sources(tracking, x.1) * owned != {};
        assert earned <==> Owned(Now(), x.1) by {
          assert forall c ::
            c in Sources(tracking, x.1) * owned
            <==> c in Sources(tracking, x.1) && c in rows[d].chunks && c !in j.chunks;
        }
        if x.1 in j.cands && !earned { gone := gone + {x}; }
        todo := todo - {x};
      }
    }

    /** Rolled-back candidates leave the anchors of the document unless it still contributes to them. */
    method PruneDocRecoveryAnchors(d: Doc, plan: Plan) returns (ok: bool)
      requires InRoll(d, plan, Emptied) && rows[d].journal.value.mode == Patch
      modifies this
      ensures InRoll(d, plan, Emptied) && Continues() && rows == old(rows) && done == old(done)
      ensures ok ==> disk.anchors == anchors
      ensures ok ==> forall k :: k in rows[d].journal.value.cands && (d, k) in anchors ==> Owned(Now(), k)
      ensures BodiesKept()
      ensures !failing ==> ok
    {
      hide Settled, IsRun, Step, Valid, Owned;
      var gone := UnearnedAnchors(d, plan, true);
      PruneLeads(ex, Now(), true);
      ok := WriteAnchors(anchors - gone, Rol(Prune(true)));
      if !ok { return; }
      OwnershipKept(old(Now()), Now());
      var gone2 := UnearnedAnchors(d, plan, false);
      PruneLeads(ex, Now(), false);
      ok := WriteAnchors(anchors - gone2, Rol(Prune(false)));
      if !ok { return; }
      OwnershipKept(old(Now()), Now());
      ok := Flush({AnchorStore});
      assert ok ==> Durable(AnchorStore);
      OwnershipKept(old(Now()), Now());
    }

    method DeleteBodyAndRow(d: Doc, plan: Plan) returns (ok: bool)
      requires InRoll(d, plan, Unanchored)
      modifies this
      ensures Valid() && Continues() && done == old(done)
      ensures ok ==> op == Roll(d, plan, RowDropped) && rows == old(rows) - {d} && d !in bodies
      ensures !ok ==> op.Roll? && op.doc == d && (rows == old(rows) || rows == old(rows) - {d})
      ensures ok ==> bodies == old(bodies) - {d}
      ensures !failing ==> ok
    {
      hide Settled, IsRun, Step, Valid;
      DropBodyLeads(ex, Now());
      ok := WriteBodies(bodies - {d}, Rol(DropBody));
      if !ok { return; }
      DropRowLeads(ex, Now());
      ok := DeleteRow(d, Rol(DropRow), Now().(mem := Mem().(rows := rows - {d}), op := Roll(d, plan, RowDropped)));
    }

    /** For a new document the rest disappears: its body, then its status row, then the flush that makes it final. */
    method RemoveDocument(d: Doc, plan: Plan) returns (ok: bool)
      requires InRoll(d, plan, Unanchored)
      modifies this
      ensures Valid() && Continues() && done == old(done)
      ensures OtherRowsKept(d) && (d in rows ==> rows[d] == old(rows)[d])
      ensures if ok then op == Idle && d !in rows && d !in disk.rows && d !in disk.bodies else op.Roll? && op.doc == d
      ensures ok ==> bodies == old(bodies) - {d} && disk.bodies == bodies
      ensures !failing ==> ok
    {
      hide Settled, IsRun, Step, Valid;
      ok := DeleteBodyAndRow(d, plan);
      if !ok { return; }
      ok := Flush({BodyStore, RowStore});
      if !ok { return; }
      assert Durable(BodyStore) && Durable(RowStore);
      FinishCreateLeads(ex, Now());
      Advance(Rol(FinishCreate), Now().(op := Idle));
    }

    /** For a patch the base document comes back: pruned anchors, then PROCESSED with the journal cleared. */
    method RestoreDocument(d: Doc, plan: Plan) returns (ok: bool)
      requires InRoll(d, plan, Emptied) && rows[d].journal.value.mode == Patch
      modifies this
      ensures Valid() && Continues() && done == old(done) && OtherRowsKept(d) && d in rows
      ensures if ok then op == Idle && rows[d].journal.None?
              else rows[d].journal.None? || (op.Roll? && op.doc == d && rows == old(rows))
      ensures BodiesKept()
      ensures !failing ==> ok
    {
      hide Settled, IsRun, Step, Valid, Owned, Without;
      ok := PruneDocRecoveryAnchors(d, plan);
      if !ok { return; }
      var restored := Row(Processed, Without(rows[d].chunks, set c | c in rows[d].journal.value.chunks), None);
      RestoreLeads(ex, Now());
      ok := WriteRow(d, restored, Rol(Restore), WithRow(Now(), d, restored).(op := Idle));
    }

    /** Roll one journaled operation back, or leave its journal for the next attempt. */
    method RollbackOne(d: Doc) returns (ok: bool)
      requires Valid() && op == Idle && HasJournal(rows, d)
      modifies this
      ensures Valid() && Continues() && op == Idle && done == old(done) && OtherRowsKept(d)
      ensures ok ==> !HasJournal(rows, d) && (old(rows)[d].journal.value.mode == Patch ==> d in rows)
      ensures !ok && d in rows ==> rows[d] == old(rows)[d] || rows[d].journal.None?
      ensures ok ==> bodies == old(bodies) - (if old(rows)[d].journal.value.mode == Create then {d} else {})
      ensures ok && old(disk).bodies == old(bodies) ==> disk.bodies == bodies
      ensures !failing ==> ok
    {
      hide Settled, IsRun, Step, Valid;
      var mode := rows[d].journal.value.mode;
      var plan;
      ok, plan := PurgeKgContributions(d);
      if ok {
        if mode == Create { ok := RemoveDocument(d, plan); } else { ok := RestoreDocument(d, plan); }
      }
      if !ok { GiveUp(); }
    }

    /** The documents whose creation is open. */
    static function Creations(rows: map<Doc, Row>): set<Doc> {
      set d | d in rows && rows[d].journal.Some? && rows[d].journal.value.mode == Create
    }

    /** The bodies that are left once these operations are rolled back. */
    static function WithoutCreated(bodies: set<Doc>, rows: map<Doc, Row>, gone: set<Doc>): set<Doc> {
      bodies - (Creations(rows) * gone)
    }

    static lemma OneMoreGone(bodies: set<Doc>, rows: map<Doc, Row>, gone: set<Doc>, d: Doc)
      requires HasJournal(rows, d)
      ensures WithoutCreated(bodies, rows, gone + {d})
        == WithoutCreated(bodies, rows, gone) - (if rows[d].journal.value.mode == Create then {d} else {})
    {
    }

    static lemma NoneGone(bodies: set<Doc>, rows: map<Doc, Row>)
      ensures WithoutCreated(bodies, rows, {}) == bodies
    {
    }

    static lemma AllGone(bodies: set<Doc>, rows: map<Doc, Row>, gone: set<Doc>)
      requires gone == set d | d in rows && rows[d].journal.Some?
      ensures WithoutCreated(bodies, rows, gone) == bodies - Creations(rows)
    {
    }

    /** Each of these open operations is rolled back, or reported as failed. */
    method RollbackEach(all: set<Doc>) returns (rolledBack: set<Doc>, failed: set<Doc>)
      requires Valid() && op == Idle && forall d :: d in all ==> HasJournal(rows, d)
      modifies this
      ensures Valid() && Continues() && op == Idle && done == old(done)
      ensures rolledBack + failed == all && rolledBack !! failed && (!failing ==> failed == {})
      ensures forall d :: d in rolledBack ==> !HasJournal(rows, d)
      ensures forall d :: d !in all ==> (d in rows <==> d in old(rows)) && (d in rows ==> rows[d] == old(rows)[d])
      ensures failed == {} && old(disk).bodies == old(bodies) ==>
        bodies == WithoutCreated(old(bodies), old(rows), rolledBack) && disk.bodies == bodies
    {
      hide Settled, IsRun, Step, Valid, Inv, WithoutCreated;
      rolledBack, failed := {}, {};
      NoneGone(bodies, rows);
      var todo := all;
      while todo != {}
        invariant todo <= all && rolledBack + failed == all - todo && rolledBack !! failed
        invariant Valid() && Continues() && op == Idle && done == old(done) && (!failing ==> failed == {})
        invariant forall d :: d in todo ==> d in rows && rows[d] == old(rows)[d]
        invariant forall d :: d in rolledBack ==> !HasJournal(rows, d)
        invariant forall d :: d !in all ==> (d in rows <==> d in old(rows)) && (d in rows ==> rows[d] == old(rows)[d])
        invariant failed == {} && old(disk).bodies == old(bodies) ==>
          bodies == WithoutCreated(old(bodies), old(rows), rolledBack) && disk.bodies == bodies
        decreases todo
      {
        var d :| d in todo;
        OneMoreGone(old(bodies), old(rows), rolledBack, d);
        var ok := RollbackOne(d);
        if ok { rolledBack := rolledBack + {d}; } else { failed := failed + {d}; }
        todo := todo - {d};
      }
    }

    /** arollback_failed_custom_chunk_patches: every open operation is rolled back, or reported as failed. Once none
        failed and doc_status is on disk, the store is what its committed operations made it. */
    method RollbackFailedPatches() returns (rolledBack: set<Doc>, failed: set<Doc>)
      requires Valid() && op == Idle
      modifies this
      ensures Valid() && Continues() && op == Idle && done == old(done)
      ensures rolledBack + failed == (set d | d in old(rows) && old(rows)[d].journal.Some?) && rolledBack !! failed
      ensures forall d :: d in rolledBack ==> !HasJournal(rows, d)
      ensures forall d :: d in old(rows) && old(rows)[d].journal.None? ==> d in rows && rows[d] == old(rows)[d]
      ensures !failing ==> failed == {}
      ensures failed == {} ==> forall d :: d in rows ==> rows[d].journal.None?
      ensures failed == {} && disk.rows == rows ==>
        Holds(Mem(), done) && Holds(disk, done) && BodiesHold(run, Now(), done)
      ensures failed == {} && old(disk).bodies == old(bodies) ==>
        bodies == old(bodies) - Creations(old(rows)) && disk.bodies == bodies
    {
      hide Settled, IsRun, Step, Valid, Inv, BodiesHold, Holds, WithoutCreated;
      OpenOperationsAreDiscoverable();
      var all := set d | d in rows && (rows[d].status == Status.Failed || rows[d].status == Processing)
        && rows[d].journal.Some?;
      rolledBack, failed := RollbackEach(all);
      assert rolledBack <= all && (failed == {} ==> rolledBack == all);
      assert forall d :: d in rows && d !in all ==> rows[d].journal.None?;
      if failed == {} { AllGone(old(bodies), old(rows), rolledBack); }
      if failed == {} && disk.rows == rows { NothingOpenHolds(); }
    }

    // ---- After a crash ----

    /** The process ends, at whatever point, and starts again: memory is what the disk holds. */
    method Restart()
      requires Valid()
      modifies this
      ensures Valid() && Continues() && op == Idle && done == old(done) && Mem() == old(disk) && disk == old(disk)
    {
      hide Settled, IsRun;
      graph, tracking, text := disk.graph, disk.tracking, disk.text;
      anchors, bodies, rows := disk.anchors, disk.bodies, disk.rows;
      op := Idle;
      LogPersisted(Crash);
    }

    /** A restart and a scan. If nothing fails during the scan, memory and disk hold exactly what the operations
        committed before the crash have made of the store; and that goes for the bodies too, exactly if the crash left
        none but committed ones without a status row. */
    method RestartAndScan() returns (clean: bool)
      requires Valid()
      modifies this
      ensures Valid() && Continues() && op == Idle && done == old(done)
      ensures clean ==> Holds(Mem(), done) && Holds(disk, done) && BodiesHold(run, Now(), done)
      ensures clean ==> bodies == disk.bodies == old(disk).bodies - Creations(old(disk).rows)
      ensures clean ==>
        (bodies == done.bodies <==> forall d :: d in old(disk).bodies && d !in old(disk).rows ==> d in done.bodies)
      ensures !failing ==> clean
    {
      hide Valid, BodiesHold;
      Restart();
      BodiesAreCommittedIff();
      var rolledBack, failed := RollbackFailedPatches();
      var flushed := Flush({RowStore});
      assert flushed ==> Durable(RowStore);
      clean := failed == {} && flushed;
      if clean { NothingOpenHolds(); }
    }

    /** Without the bodies of open creations, those that are left are the committed ones exactly if no others lack a
        row. */
    lemma BodiesAreCommittedIff()
      requires Valid() && Mem() == disk
      ensures bodies - Creations(rows) == done.bodies <==> forall d :: d in bodies && d !in rows ==> d in done.bodies
    {
      ValidIsSafe();
      hide Valid, Inv, TextOk, AnchorsOk, DoneOk, MemRowsOk;
      RowsPart(ex, Now()); SetsPart(ex, Now());
      assert forall d :: d in rows ==> JournalOk(ex, done, d, rows[d]);
    }

    lemma NothingOpenHolds()
      requires Valid() && disk.rows == rows && forall d :: d in rows ==> rows[d].journal.None?
      ensures Holds(Mem(), done) && Holds(disk, done) && BodiesHold(run, Now(), done)
    {
      hide Inv, IsRun, Settled, FromExact, Holds, Outlives;
      ValidIsSafe();
      assert Quiet(Now());
      SettledIsExact(ex, run, events);
      BodiesAreExactIff(ex, run, events);
      QuietStore(ex, Now(), Mem());
      QuietStore(ex, Now(), disk);
    }

    lemma OpenOperationsAreDiscoverable()
      requires Valid()
      ensures forall d :: HasJournal(rows, d) ==> rows[d].status == Status.Failed || rows[d].status == Processing
    {
      hide Valid, Inv;
      ValidIsSafe();
      forall d | HasJournal(rows, d) ensures rows[d].status == Status.Failed || rows[d].status == Processing {
        JournalFacts(ex, Now(), d);
      }
    }
  }
}
