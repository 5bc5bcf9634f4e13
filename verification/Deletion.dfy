/** adelete_by_doc_id: deleting a document, failing at any point, and trying again. */
module Deletion {
  import opened Kg
  import opened Purge
  import opened CachedRebuilds

  /** A doc_status row. `deletionIds` and `parseIds` are the LLM cache ids in its metadata: those collected by earlier
      deletion attempts, and those of the parsing stage. */
  datatype StatusRow = StatusRow(
    chunks: seq<Chunk>,
    staged: seq<Chunk>,
    stagedCands: set<Key>,
    deletionIds: set<CacheId>,
    parseIds: set<CacheId>)

  datatype Outcome = NotFound | Success | Fail

  /** The chunks a deletion purges: the document's own and those of an unfinished operation. */
  function ChunkIds(r: StatusRow): set<Chunk> {
    (set c | c in r.chunks) + (set c | c in r.staged)
  }

  /** The candidates it visits: the anchors, and those only the journal names. */
  function CandidatesFor(d: Doc, r: StatusRow, anchors: set<(Doc, Key)>): set<Key> {
    (set x | x in anchors && x.0 == d :: x.1) + r.stagedCands
  }

  function RowIds(text: map<Chunk, set<CacheId>>, chunks: set<Chunk>): set<CacheId> {
    set c, id | c in chunks && c in text && id in text[c] :: id
  }

  /** The row leads to this cache id: it is on record there, or a chunk row of the document lists it. */
  ghost predicate LeadsTo(r: StatusRow, text: map<Chunk, set<CacheId>>, id: CacheId) {
    || id in r.deletionIds || id in r.parseIds
    || exists c :: (c in r.chunks || c in r.staged) && c in text && id in text[c]
  }

  lemma LeadsToIffCollected(r: StatusRow, text: map<Chunk, set<CacheId>>, id: CacheId)
    ensures LeadsTo(r, text, id) <==> id in r.deletionIds + r.parseIds + RowIds(text, ChunkIds(r))
  {
    if c :| (c in r.chunks || c in r.staged) && c in text && id in text[c] { assert c in ChunkIds(r); }
  }

  /** The rows of all keys but these are the same. */
  ghost predicate SameBut<K(!new), V>(a: map<K, V>, b: map<K, V>, keys: set<K>) {
    forall k :: k !in keys ==> (k in a <==> k in b) && (k in a && k in b ==> a[k] == b[k])
  }

  ghost predicate Shrinks<K(!new), V>(a: map<K, V>, b: map<K, V>) {
    forall k :: k in b ==> k in a && b[k] == a[k]
  }

  /** The stores other than the graph and its tracking rows. */
  datatype Records = Records(
    text: map<Chunk, set<CacheId>>,
    anchors: set<(Doc, Key)>,
    bodies: set<Doc>,
    rows: map<Doc, StatusRow>,
    cache: map<CacheId, CacheEntry>)

  /** From a to b only what belongs to document d, with status row r, has gone; the row may have changed in the cache
      ids on record, all of which it led to before. */
  ghost predicate OnlyOwn(d: Doc, r: StatusRow, a: Records, b: Records) {
    && SameBut(a.rows, b.rows, {d}) && (forall e :: e != d ==> (e in b.bodies <==> e in a.bodies))
    && b.anchors <= a.anchors && (forall x :: x in a.anchors && x.0 != d ==> x in b.anchors)
    && Shrinks(a.text, b.text) && (forall c :: c in a.text && c !in r.chunks && c !in r.staged ==> c in b.text)
    && Shrinks(a.cache, b.cache) && (forall id :: id in a.cache && !LeadsTo(r, a.text, id) ==> id in b.cache)
    && (d in b.rows ==>
          && b.rows[d] == r.(deletionIds := b.rows[d].deletionIds)
          && forall id :: id in b.rows[d].deletionIds ==> LeadsTo(r, a.text, id))
  }

  lemma NothingTouched(d: Doc, r: StatusRow, a: Records)
    requires d in a.rows && a.rows[d] == r
    ensures OnlyOwn(d, r, a, a)
  {
    assert r == r.(deletionIds := r.deletionIds);
  }

  lemma CacheTouched(d: Doc, r: StatusRow, a: Records, b: Records, cache: map<CacheId, CacheEntry>)
    requires OnlyOwn(d, r, a, b) && Shrinks(b.cache, cache)
    requires forall id :: id in b.cache && id !in cache ==> LeadsTo(r, a.text, id)
    ensures OnlyOwn(d, r, a, b.(cache := cache))
  {
    hide LeadsTo;
  }

  lemma RowTouched(d: Doc, r: StatusRow, a: Records, b: Records, rows: map<Doc, StatusRow>, bodies: set<Doc>)
    requires OnlyOwn(d, r, a, b) && d in b.rows && bodies - {d} == b.bodies - {d}
    requires rows == b.rows - {d} || (d in rows && rows == b.rows[d := r.(deletionIds := rows[d].deletionIds)])
    requires d in rows ==> forall id :: id in rows[d].deletionIds ==> LeadsTo(r, a.text, id)
    ensures OnlyOwn(d, r, a, b.(rows := rows, bodies := bodies))
  {
    hide LeadsTo;
    assert forall e :: e != d ==> (e in bodies <==> e in bodies - {d}) && (e in b.bodies <==> e in b.bodies - {d});
  }

  lemma TextTouched(d: Doc, r: StatusRow, a: Records, b: Records, text: map<Chunk, set<CacheId>>)
    requires OnlyOwn(d, r, a, b) && Shrinks(b.text, text)
    requires forall c :: c in b.text && c !in text ==> c in ChunkIds(r)
    ensures OnlyOwn(d, r, a, b.(text := text))
  {
    hide LeadsTo;
  }

  lemma AnchorsTouched(d: Doc, r: StatusRow, a: Records, b: Records, anchors: set<(Doc, Key)>)
    requires OnlyOwn(d, r, a, b) && anchors <= b.anchors && forall x :: x in b.anchors && x.0 != d ==> x in anchors
    ensures OnlyOwn(d, r, a, b.(anchors := anchors))
  {
    hide LeadsTo;
  }

  /** Every cache entry the document ever referenced, if it still exists, can be found from its status row or from one
      of its chunk rows. */
  predicate Reachable(referenced: set<CacheId>, cached: set<CacheId>, r: StatusRow, text: map<Chunk, set<CacheId>>,
                      chunks: set<Chunk>) {
    referenced * cached <= r.deletionIds + r.parseIds + RowIds(text, chunks)
  }

  // ---- Plans for part of the candidates ----

  /** A retry may find fewer candidates than the first attempt, where some anchors are gone already. */
  lemma PartialPlan(b: Base, g: Provenance, t: Provenance, cands: set<Key>)
    requires WellFormed(b) && GraphWithin(b, BestEffort, g) && TrackingWithin(b, t) && cands <= b.cands
    ensures
      var p := Classify(g, t, b.purged, cands, BestEffort);
      PlanFor(b, BestEffort, p) && p.drop <= g.Keys && p.rebuild.Keys <= g.Keys
  {
    ClassifiedPlan(b, BestEffort, g, t);
    var p, whole := Classify(g, t, b.purged, cands, BestEffort), Classify(g, t, b.purged, b.cands, BestEffort);
    assert p.drop <= whole.drop && forall k :: k in p.rebuild ==>
      k in whole.rebuild && p.rebuild[k] == whole.rebuild[k];
    assert p.drop <= g.Keys && p.rebuild.Keys <= g.Keys;
    hide Classify;
  }

  /** Object k is as an uninterrupted deletion leaves it. */
  ghost predicate Repaired(b: Base, g: Provenance, k: Key) {
    if Doomed(b, k) then k !in g else k in b.graph ==> k in g && g[k] == Target(b, BestEffort)[k]
  }

  /** Visited candidates that the plan leaves alone are repaired already. */
  lemma LeftAloneIsRepaired(b: Base, g: Provenance, t: Provenance, cands: set<Key>, k: Key)
    requires WellFormed(b) && Visible(b) && GraphWithin(b, BestEffort, g) && TrackingWithin(b, t) && cands <= b.cands
    requires k in g && k in cands
    ensures
      var p := Classify(g, t, b.purged, cands, BestEffort);
      && (k !in p.drop && k !in p.rebuild ==> Repaired(b, g, k))
      && (k in p.rebuild ==> !Doomed(b, k) && p.rebuild[k] == Target(b, BestEffort)[k])
  {
    var p, whole := Classify(g, t, b.purged, cands, BestEffort), Classify(g, t, b.purged, b.cands, BestEffort);
    assert (k in p.drop <==> k in whole.drop) && (k in p.rebuild <==> k in whole.rebuild)
        && (k in p.rebuild ==> p.rebuild[k] == whole.rebuild[k]);
    PlanRepairs(b, BestEffort, g, t);
    hide Classify, WellFormed, TrackingWithin;
  }

  /** No purge write undoes a repair. */
  lemma WriteKeepsRepaired(b: Base, g: Provenance, p: Plan, w: Write, k: Key)
    requires WellFormed(b) && GraphWithin(b, BestEffort, g) && PlanFor(b, BestEffort, p) && Allowed(b, g, p, w)
    requires Repaired(b, g, k)
    ensures Repaired(b, GraphAfter(g, p, w), k)
  {
    hide Full, WellFormed, Target;
    match w
    case DropNode(n) => if k in b.graph && CutOff(p, k) { CutOffIsDoomed(b, BestEffort, p, k); } hide Doomed;
    case SetGraph(j) => RebuildRepairs(b, p, j); hide Doomed, PlanFor;
    case _ => hide Doomed;
  }

  lemma RebuildRepairs(b: Base, p: Plan, k: Key)
    requires PlanFor(b, BestEffort, p) && k in p.rebuild
    ensures !Doomed(b, k) && p.rebuild[k] == Target(b, BestEffort)[k]
  {
  }

  lemma WriteKeepsAll(b: Base, g0: Provenance, g: Provenance, t: Provenance, p: Plan, w: Write)
    requires WellFormed(b) && GraphWithin(b, BestEffort, g) && TrackingWithin(b, t) && PlanFor(b, BestEffort, p)
    requires Allowed(b, g, p, w) && OnlyPlanned(p, g0, g)
    ensures GraphWithin(b, BestEffort, GraphAfter(g, p, w)) && TrackingWithin(b, TrackingAfter(t, p, w))
    ensures OnlyPlanned(p, g0, GraphAfter(g, p, w))
    ensures forall k :: Repaired(b, g, k) ==> Repaired(b, GraphAfter(g, p, w), k)
  {
    GraphWriteStaysWithin(b, BestEffort, g, p, w);
    TrackingWriteStaysWithin(b, BestEffort, g, t, p, w);
    WriteIsPlanned(b, g0, g, p, w);
    forall k | Repaired(b, g, k) ensures Repaired(b, GraphAfter(g, p, w), k) {
      WriteKeepsRepaired(b, g, p, w, k);
    }
  }

  /** What no candidate covers is untouched and as it should be. */
  lemma UncoveredIsRepaired(b: Base, g: Provenance, k: Key)
    requires WellFormed(b) && GraphWithin(b, BestEffort, g) && k in b.graph && k !in b.cands
    ensures Repaired(b, g, k)
  {
    if Doomed(b, k) { DoomedIsCandidate(b, k); }
  }

  /** An attempt that carries out its plan repairs every object it visits; other candidates were repaired before. */
  lemma AttemptRepairs(b: Base, g0: Provenance, t0: Provenance, cands: set<Key>, g: Provenance, degraded: set<Key>,
                       k: Key)
    requires WellFormed(b) && Visible(b) && cands <= b.cands && k in b.graph
    requires GraphWithin(b, BestEffort, g0) && TrackingWithin(b, t0) && GraphWithin(b, BestEffort, g)
    requires
      var p := Classify(g0, t0, b.purged, cands, BestEffort);
      && OnlyPlanned(p, g0, g) && (forall j :: j in p.drop || CutOff(p, j) ==> j !in g)
      && (forall j :: j in p.rebuild && j in g ==> g[j] == p.rebuild[j] || j in degraded)
    requires k in b.cands && k !in cands ==> Repaired(b, g, k) || k in degraded
    ensures Repaired(b, g, k) || k in degraded
  {
    var p := Classify(g0, t0, b.purged, cands, BestEffort);
    PartialPlan(b, g0, t0, cands);
    if k !in b.cands {
      UncoveredIsRepaired(b, g, k);
    } else if k in cands && k in g {
      LeftAloneIsRepaired(b, g0, t0, cands, k);
    }
    hide Classify, WellFormed, Visible, TrackingWithin, Target, CutOff;
  }

  lemma AllRepairedIsTarget(b: Base, g: Provenance)
    requires GraphWithin(b, BestEffort, g) && forall k :: k in b.graph ==> Repaired(b, g, k)
    ensures g == Target(b, BestEffort)
  {
    assert forall k :: k in g ==> Repaired(b, g, k);
    hide Doomed;
    assert g.Keys == Target(b, BestEffort).Keys;
  }

  lemma RebuiltIsRepaired(b: Base, p: Plan, g: Provenance, k: Key)
    requires PlanFor(b, BestEffort, p) && k in p.rebuild && k in g && g[k] == p.rebuild[k]
    ensures Repaired(b, g, k)
  {
    RebuildRepairs(b, p, k);
    hide Doomed, Target;
  }

  lemma AbsentIsRepaired(b: Base, g: Provenance, k: Key)
    requires GraphWithin(b, BestEffort, g) && k !in b.graph
    ensures Repaired(b, g, k)
  {
  }

  lemma NothingWrittenYet(p: Plan, g: Provenance)
    ensures OnlyPlanned(p, g, g)
  {
  }

  lemma NothingIsRebuildable(a: Archive, p: Plan, live: set<Key>)
    requires !AnythingCached(a, p)
    ensures forall k :: !Rebuildable(a, p, live, k)
  {
  }

  lemma CutIsComplete(p: Plan, g0: Provenance, g: Provenance)
    requires OnlyPlanned(p, g0, g) && forall k :: k in p.drop || CutOff(p, k) ==> k !in g
    ensures g.Keys == Survivors(g0, p)
  {
  }

  /** The tracking rows that a rebuild writes are the planned ones, of objects in the graph. */
  ghost predicate WritesPlanned(p: Plan, t0: Provenance, t: Provenance, live: set<Key>) {
    forall k ::
      || ((k in t <==> k in t0) && (k in t && k in t0 ==> t[k] == t0[k]))
      || (k in p.rebuild && k in live && k in t && t[k] == p.rebuild[k])
  }

  lemma OneMorePlanned(p: Plan, t0: Provenance, t: Provenance, g: set<Key>, k: Key)
    requires WritesPlanned(p, t0, t, g) && k in p.rebuild && k in g
    ensures WritesPlanned(p, t0, t[k := p.rebuild[k]], g)
  {
  }

  lemma NonePlanned(p: Plan, t: Provenance, g: set<Key>)
    ensures WritesPlanned(p, t, t, g)
  {
  }

  /** Of the given objects, those are rebuilt that can be and were written. */
  ghost predicate RowsRebuilt(g0: Provenance, g: Provenance, keys: set<Key>, p: Plan, a: Archive, unwritten: set<Key>) {
    && g.Keys == g0.Keys
    && forall k :: k in g ==>
         g[k] == (if k in keys && Rebuildable(a, p, g.Keys, k) && k !in unwritten then p.rebuild[k] else g0[k])
  }

  lemma OneMoreRebuilt(g0: Provenance, g: Provenance, g': Provenance, todo: set<Key>, k: Key, p: Plan, a: Archive,
                       unwritten: set<Key>, unwritten': set<Key>)
    requires RowsRebuilt(g0, g, p.rebuild.Keys - todo, p, a, unwritten) && k in todo && k in p.rebuild
    requires k !in unwritten && unwritten <= unwritten' <= unwritten + {k}
    requires g'.Keys == g.Keys && forall j :: j in g' && j != k ==> g'[j] == g[j]
    requires k in g' ==>
      g'[k] == if Rebuildable(a, p, g'.Keys, k) && k !in unwritten' then p.rebuild[k] else g[k]
    ensures RowsRebuilt(g0, g', p.rebuild.Keys - (todo - {k}), p, a, unwritten')
  {
    hide Rebuildable;
  }

  lemma NoneRebuilt(g: Provenance, p: Plan, a: Archive, unwritten: set<Key>)
    ensures RowsRebuilt(g, g, p.rebuild.Keys - p.rebuild.Keys, p, a, unwritten)
  {
  }

  lemma RebuiltIsPurged(g0: Provenance, cut: Provenance, p: Plan, a: Archive, unwritten: set<Key>, g: Provenance)
    requires cut.Keys == Survivors(g0, p) && forall k :: k in cut ==> k in g0 && cut[k] == g0[k]
    requires RowsRebuilt(cut, g, p.rebuild.Keys, p, a, unwritten)
    ensures g == Purged(g0, p, a, unwritten)
  {
    assert forall k :: Rebuildable(a, p, g.Keys, k) ==> k in p.rebuild;
    hide Rebuildable;
  }

  lemma CandidatesIgnoreIds(d: Doc, r: StatusRow, ids: set<CacheId>, anchors: set<(Doc, Key)>)
    ensures CandidatesFor(d, r.(deletionIds := ids), anchors) == CandidatesFor(d, r, anchors)
  {
  }

  /** The tracking rows that a purge leaves: none of what is dropped or cut off, the planned ones of what is rebuilt,
      and all others as they were. */
  ghost predicate TrackingPurged(p: Plan, g0: Provenance, t0: Provenance, t: Provenance) {
    forall k ::
      if k in p.drop || (k in g0 && CutOff(p, k)) then k !in t
      else if k in p.rebuild then k in t && t[k] == p.rebuild[k]
      else (k in t <==> k in t0) && (k in t && k in t0 ==> t[k] == t0[k])
  }

  /** Steps 4, 6, 7 and 8 put together. */
  lemma TrackingSteps(p: Plan, g0: Provenance, g1: Provenance, live: set<Key>, t0: Provenance, t1: Provenance,
                      t2: Provenance, t3: Provenance, t: Provenance)
    requires p.drop !! p.rebuild.Keys && (forall k :: k in live ==> k !in p.drop && !CutOff(p, k))
    requires forall k :: k !in p.drop ==> (k in g1 <==> k in g0)
    requires SameBut(t0, t1, p.rebuild.Keys)
    requires forall k :: k in p.rebuild ==> k in t1 && t1[k] == p.rebuild[k]
    requires SameBut(t1, t2, p.drop) && forall k :: k in p.drop && k.Rel? ==> k !in t2
    requires forall k :: k !in p.drop && !(k in g1 && CutOff(p, k)) ==>
      (k in t3 <==> k in t2) && (k in t3 && k in t2 ==> t3[k] == t2[k])
    requires forall k :: (k in p.drop && k.Ent?) || (k in g1 && CutOff(p, k)) || k !in t2 ==> k !in t3
    requires WritesPlanned(p, t3, t, live)
    ensures TrackingPurged(p, g0, t0, t)
  {
    hide CutOff;
  }

  lemma DropsAreNotRebuilt(g: Provenance, t: Provenance, purged: set<Chunk>, cands: set<Key>, policy: Policy)
    ensures
      var p := Classify(g, t, purged, cands, policy);
      p.drop !! p.rebuild.Keys
  {
    hide Existing;
  }

  class DocumentStore {
    /** Whether a store call may fail at all. */
    const failing: bool

    var graph: Provenance
    var tracking: Provenance

    /** Chunk rows, each with the cache ids of its extraction. */
    var text: map<Chunk, set<CacheId>>
    var anchors: set<(Doc, Key)>
    var bodies: set<Doc>
    var rows: map<Doc, StatusRow>
    var cache: map<CacheId, CacheEntry>

    /** The document being deleted, what the first attempt met, every cache id it ever referenced, and the objects
        whose last rebuild was skipped. */
    ghost const doc: Doc
    ghost const base: Base
    ghost const referenced: set<CacheId>
    ghost var degraded: set<Key>

    /** Objects that the last attempt could have rebuilt but failed to write. */
    ghost var unwritten: set<Key>

    ghost predicate Done(k: Key)
      reads `graph, `degraded
    {
      Repaired(base, graph, k) || k in degraded
    }

    /** A retry can start from this status row: it leads to the chunks, to every cache entry that still exists, and to
        every candidate that still needs repair. */
    ghost predicate CanRetry(r: StatusRow)
      reads `graph, `degraded, `text, `anchors, `cache
    {
      && ChunkIds(r) == base.purged && Reachable(referenced, cache.Keys, r, text, base.purged)
      && CandidatesFor(doc, r, anchors) <= base.cands
      && (Visible(base) ==> forall k :: k in base.cands && k !in CandidatesFor(doc, r, anchors) ==> Done(k))
    }

    ghost predicate Valid()
      reads this
    {
      && WellFormed(base)
      && GraphWithin(base, BestEffort, graph) && TrackingWithin(base, tracking)
      && (doc in rows ==> CanRetry(rows[doc]))
    }

    constructor (d: Doc, g: Provenance, t: Provenance, chunkRows: map<Chunk, set<CacheId>>, anchored: set<(Doc, Key)>,
                 docs: set<Doc>, status: map<Doc, StatusRow>, cached: map<CacheId, CacheEntry>, mayFail: bool)
      requires d in status
      requires
        WellFormed(Base(g, t, ChunkIds(status[d]), CandidatesFor(d, status[d], anchored)))
      ensures Valid() && doc == d && failing == mayFail && degraded == {}
      ensures base.graph == g && base.tracking == t
      ensures forall c :: c in base.purged <==> c in status[d].chunks || c in status[d].staged
      ensures forall k :: k in base.cands <==> (d, k) in anchored || k in status[d].stagedCands
      ensures forall id :: id in referenced <==> LeadsTo(status[d], chunkRows, id)
      ensures graph == g && tracking == t && text == chunkRows && anchors == anchored && bodies == docs
      ensures rows == status
      ensures cache == cached
    {
      failing := mayFail;
      graph, tracking, text, anchors, bodies, rows, cache := g, t, chunkRows, anchored, docs, status, cached;
      doc := d;
      base := Base(g, t, ChunkIds(status[d]), CandidatesFor(d, status[d], anchored));
      referenced := status[d].deletionIds + status[d].parseIds + RowIds(chunkRows, ChunkIds(status[d]));
      degraded, unwritten := {}, {};
      new;
      forall id ensures id in referenced <==> LeadsTo(status[d], chunkRows, id) {
        LeadsToIffCollected(status[d], chunkRows, id);
      }
    }

    ghost function Candidates(d: Doc): set<Key>
      requires d in rows
      reads this
    {
      CandidatesFor(d, rows[d], anchors)
    }

    /** What an attempt that starts now plans. */
    ghost function PlanNow(d: Doc): Plan
      requires d in rows
      reads this
    {
      Classify(graph, tracking, base.purged, Candidates(d), BestEffort)
    }

    ghost function Kept(): Records
      reads this
    {
      Records(text, anchors, bodies, rows, cache)
    }

    method Attempt() returns (ok: bool)
      ensures !failing ==> ok
    {
      ok := *;
      ok := ok || !failing;
    }

    // ---- The purge ----

    /** The attempt's plan is being carried out on the graph g0. */
    ghost predicate Working(p: Plan, g0: Provenance)
      reads this
    {
      && Valid() && doc in rows && PlanFor(base, BestEffort, p)
      && OnlyPlanned(p, g0, graph)
    }

    /** One write of the graph or a tracking store; on failure it may or may not have taken place. */
    method WriteKnowledge(p: Plan, w: Write, ghost g0: Provenance) returns (ok: bool)
      requires Working(p, g0) && Allowed(base, graph, p, w)
      modifies `graph, `tracking
      ensures Working(p, g0)
      ensures graph == old(graph) || graph == GraphAfter(old(graph), p, w)
      ensures tracking == old(tracking) || tracking == TrackingAfter(old(tracking), p, w)
      ensures ok ==> graph == GraphAfter(old(graph), p, w) && tracking == TrackingAfter(old(tracking), p, w)
      ensures !failing ==> ok
    {
      assert (w.SetGraph? ==> w.k in p.rebuild) && (w.SetTracking? ==> w.k in p.rebuild) by {
        hide WellFormed, Visible, GraphWithin, TrackingWithin, PlanFor, OnlyPlanned, CutOff;
      }
      hide GraphWithin, TrackingWithin, WellFormed, Visible, PlanFor, Repaired, OnlyPlanned, Allowed;
      hide GraphAfter, TrackingAfter, CandidatesFor, ChunkIds, Reachable;
      var applied := Attempt();
      if !applied { return false; }
      WriteKeepsAll(base, g0, graph, tracking, p, w);
      graph, tracking := GraphAfter(graph, p, w), TrackingAfter(tracking, p, w);
      ok := Attempt();
    }

    /** Step 4: the tracking rows of what stays name its remaining sources. */
    method UpdateTracking(p: Plan, ghost g0: Provenance) returns (ok: bool)
      requires Working(p, g0)
      modifies `graph, `tracking
      ensures Working(p, g0) && graph == old(graph) && (!failing ==> ok)
      ensures SameBut(old(tracking), tracking, p.rebuild.Keys)
      ensures ok ==> forall k :: k in p.rebuild ==> k in tracking && tracking[k] == p.rebuild[k]
    {
      hide Working;
      ok := true;
      var todo := p.rebuild.Keys;
      while todo != {}
        invariant todo <= p.rebuild.Keys && Working(p, g0) && graph == old(graph) && (!failing ==> ok)
        invariant SameBut(old(tracking), tracking, p.rebuild.Keys)
        invariant forall k :: k in p.rebuild && k !in todo ==> k in tracking && tracking[k] == p.rebuild[k]
        decreases todo
      {
        var k :| k in todo;
        ok := WriteKnowledge(p, SetTracking(k), g0);
        if !ok { return; }
        todo := todo - {k};
      }
    }

    /** Step 6: edges without remaining sources, and their tracking rows. */
    method RemoveEdges(p: Plan, ghost g0: Provenance) returns (ok: bool)
      requires Working(p, g0)
      modifies `graph, `tracking
      ensures Working(p, g0) && (!failing ==> ok)
      ensures forall k :: k in graph ==> k in old(graph) && graph[k] == old(graph)[k]
      ensures forall k :: k in old(graph) && !(k in p.drop && k.Rel?) ==> k in graph
      ensures SameBut(old(tracking), tracking, p.drop)
      ensures ok ==> forall k :: k in p.drop && k.Rel? ==> k !in graph && k !in tracking
    {
      hide Working;
      ok := true;
      var edges := set k | k in p.drop && k.Rel?;
      var todo := edges;
      while todo != {}
        invariant todo <= edges && Working(p, g0) && (!failing ==> ok)
        invariant forall k :: k in graph ==> k in old(graph) && graph[k] == old(graph)[k]
        invariant forall k :: k in old(graph) && k !in edges ==> k in graph
        invariant SameBut(old(tracking), tracking, p.drop)
        invariant forall k :: k in edges - todo ==> k !in graph && k !in tracking
        decreases todo
      {
        var k :| k in todo;
        ok := WriteKnowledge(p, DropEdge(k), g0);
        if !ok { return; }
        ok := WriteKnowledge(p, DropTracking(k), g0);
        if !ok { return; }
        todo := todo - {k};
      }
    }

    /** Step 7: nodes without remaining sources go with their residual edges and all tracking rows. */
    method RemoveNodes(p: Plan, ghost g0: Provenance) returns (ok: bool)
      requires Working(p, g0)
      modifies `graph, `tracking
      ensures Working(p, g0) && (!failing ==> ok)
      ensures forall k :: k in graph ==> k in old(graph) && graph[k] == old(graph)[k]
      ensures forall k :: k !in p.drop && !(k in old(graph) && CutOff(p, k)) ==>
        (k in tracking <==> k in old(tracking)) && (k in tracking ==> tracking[k] == old(tracking)[k])
      ensures ok ==> forall k :: (k in p.drop && k.Ent?) || CutOff(p, k) ==> k !in graph
      ensures ok ==> forall k :: (k in p.drop && k.Ent?) || (k in old(graph) && CutOff(p, k)) ==> k !in tracking
      ensures forall k :: k !in old(tracking) ==> k !in tracking
    {
      hide Working;
      ok := ForgetResidualEdges(p, g0);
      if !ok { return; }
      var nodes := set k | k in p.drop && k.Ent?;
      var todo := nodes;
      ghost var rows := tracking;
      while todo != {}
        invariant todo <= nodes && Working(p, g0) && (!failing ==> ok)
        invariant SameBut(rows, tracking, p.drop)
        invariant forall k :: k !in rows ==> k !in tracking
        invariant forall k :: k in nodes - todo ==> k !in tracking
        invariant forall k :: k in graph ==> k in old(graph) && graph[k] == old(graph)[k]
        invariant forall k, e :: k in nodes - todo && e in graph ==> e != k && !Touches(e, k.name)
        decreases todo
      {
        var k :| k in todo;
        ok := WriteKnowledge(p, DropNode(k.name), g0);
        if !ok { return; }
        ok := WriteKnowledge(p, DropTracking(k), g0);
        if !ok { return; }
        todo := todo - {k};
      }
    }

    method ForgetResidualEdges(p: Plan, ghost g0: Provenance) returns (ok: bool)
      requires Working(p, g0)
      modifies `graph, `tracking
      ensures Working(p, g0) && graph == old(graph) && (!failing ==> ok)
      ensures forall k :: !(k in graph && CutOff(p, k)) ==>
        (k in tracking <==> k in old(tracking)) && (k in tracking ==> tracking[k] == old(tracking)[k])
      ensures forall k :: k !in old(tracking) ==> k !in tracking
      ensures ok ==> forall k :: k in graph && CutOff(p, k) ==> k !in tracking
    {
      hide Working, CutOff;
      ok := true;
      var residual := set k | k in graph && CutOff(p, k);
      var todo := residual;
      while todo != {}
        invariant todo <= residual && Working(p, g0) && graph == old(graph) && (!failing ==> ok)
        invariant SameBut(old(tracking), tracking, residual)
        invariant forall k :: k !in old(tracking) ==> k !in tracking
        invariant forall k :: k in residual - todo ==> k !in tracking
        decreases todo
      {
        var k :| k in todo;
        ok := WriteKnowledge(p, DropTracking(k), g0);
        if !ok { return; }
        todo := todo - {k};
      }
    }

    /** Step 8, rebuild_knowledge_from_chunks: what a cached extraction or an edge gives something to rebuild from. A
        failure to write one object is logged and ignored; only reading the cache can fail as a whole. */
    method Rebuild(p: Plan, ghost g0: Provenance) returns (ok: bool)
      requires Working(p, g0) && unwritten == {}
      modifies `graph, `tracking, `degraded, `unwritten
      ensures Working(p, g0) && graph.Keys == old(graph).Keys && (!failing ==> ok && unwritten == {})
      ensures ok ==> RowsRebuilt(old(graph), graph, p.rebuild.Keys, p, Archive(text, cache), unwritten)
      ensures ok ==> forall k :: k in p.rebuild && k in graph ==> graph[k] == p.rebuild[k] || k in degraded
      ensures WritesPlanned(p, old(tracking), tracking, old(graph).Keys)
    {
      hide Working, Rebuildable, AnythingCached, WritesPlanned;
      NonePlanned(p, tracking, graph.Keys);
      ok := Attempt();
      if !ok { return; }
      var a := Archive(text, cache);
      if !AnythingCached(a, p) {
        assert forall k :: !Rebuildable(a, p, graph.Keys, k) by { NothingIsRebuildable(a, p, graph.Keys); }
        MarkDegraded(p, g0, p.rebuild.Keys);
        return;
      }
      var todo := p.rebuild.Keys;
      NoneRebuilt(graph, p, a, unwritten);
      hide RowsRebuilt;
      while todo != {}
        invariant todo <= p.rebuild.Keys && Working(p, g0) && graph.Keys == old(graph).Keys
        invariant unwritten !! todo && (!failing ==> unwritten == {})
        invariant RowsRebuilt(old(graph), graph, p.rebuild.Keys - todo, p, a, unwritten)
        invariant forall k :: k in p.rebuild && k !in todo && k in graph ==> graph[k] == p.rebuild[k] || k in degraded
        invariant WritesPlanned(p, old(tracking), tracking, old(graph).Keys)
        decreases todo
      {
        var k :| k in todo;
        ghost var g, u := graph, unwritten;
        if k in graph {
          OneMorePlanned(p, old(tracking), tracking, graph.Keys, k);
          RebuildObject(p, a, k, g0);
        }
        OneMoreRebuilt(old(graph), g, graph, todo, k, p, a, u, unwritten);
        todo := todo - {k};
      }
      assert p.rebuild.Keys - todo == p.rebuild.Keys;
    }

    /** One object: its tracking row, and its graph row if there is anything to rebuild it from. */
    method RebuildObject(p: Plan, a: Archive, k: Key, ghost g0: Provenance)
      requires Working(p, g0) && k in p.rebuild && k in graph && AnythingCached(a, p) && k !in unwritten
      modifies `graph, `tracking, `degraded, `unwritten
      ensures Working(p, g0) && graph.Keys == old(graph).Keys
      ensures forall j :: j in graph && j != k ==> graph[j] == old(graph)[j]
      ensures k in graph
      ensures graph[k] == (if Rebuildable(a, p, graph.Keys, k) && k !in unwritten then p.rebuild[k] else old(graph)[k])
      ensures old(unwritten) <= unwritten <= old(unwritten) + {k} && (!failing ==> unwritten == old(unwritten))
      ensures forall j :: j != k ==> (j in degraded <==> j in old(degraded))
      ensures graph[k] == p.rebuild[k] || k in degraded
      ensures tracking == old(tracking) || tracking == old(tracking)[k := p.rebuild[k]]
    {
      hide Working, AnythingCached, NamedInCache;
      var ok := WriteKnowledge(p, SetTracking(k), g0);
      assert graph == old(graph);
      var found := NamedInCache(a, p, k) || (k.Ent? && exists e | e in graph :: Touches(e, k.name));
      if ok && found { ok := WriteKnowledge(p, SetGraph(k), g0); }
      if graph[k] == p.rebuild[k] {
        MarkRepaired(p, g0, k);
      } else {
        if !ok { MarkUnwritten(p, g0, k); }
        MarkDegraded(p, g0, {k});
      }
    }

    ghost method MarkUnwritten(p: Plan, g0: Provenance, k: Key)
      requires Working(p, g0)
      modifies `unwritten
      ensures Working(p, g0) && unwritten == old(unwritten) + {k}
    {
      hide WellFormed, Visible, GraphWithin, TrackingWithin, PlanFor;
      hide OnlyPlanned, Reachable, CandidatesFor, ChunkIds, Repaired;
      unwritten := unwritten + {k};
    }

    ghost method MarkRepaired(p: Plan, g0: Provenance, k: Key)
      requires Working(p, g0) && k in p.rebuild && k in graph && graph[k] == p.rebuild[k]
      modifies `degraded
      ensures Working(p, g0) && degraded == old(degraded) - {k}
    {
      hide WellFormed, Visible, GraphWithin, TrackingWithin, PlanFor;
      hide OnlyPlanned, Reachable, CandidatesFor, ChunkIds, Repaired;
      RebuiltIsRepaired(base, p, graph, k);
      degraded := degraded - {k};
    }

    ghost method MarkDegraded(p: Plan, g0: Provenance, keys: set<Key>)
      requires Working(p, g0)
      modifies `degraded
      ensures Working(p, g0) && degraded == old(degraded) + keys
    {
      hide WellFormed, Visible, GraphWithin, TrackingWithin, PlanFor;
      hide OnlyPlanned, Reachable, CandidatesFor, ChunkIds, Repaired;
      degraded := degraded + keys;
    }

    /** The status row alone leads to every cache entry that still exists. */
    ghost predicate CacheRecorded()
      reads this
      requires doc in rows
    {
      referenced * cache.Keys <= rows[doc].deletionIds + rows[doc].parseIds
    }

    /** Step 5: the chunk rows. Once they are gone, only the status row still leads to the cache. */
    method DeleteChunkRows(chunks: set<Chunk>) returns (ok: bool)
      requires Valid() && doc in rows && CacheRecorded() && chunks == base.purged
      modifies `text
      ensures Valid() && (!failing ==> ok)
      ensures forall c :: c !in chunks ==> (c in text <==> c in old(text)) && (c in text ==> text[c] == old(text)[c])
      ensures Shrinks(old(text), text)
      ensures ok ==> text.Keys !! chunks
    {
      hide WellFormed, Visible, GraphWithin, TrackingWithin, CandidatesFor, ChunkIds, Repaired, RowIds;
      ok := Attempt();
      var gone: set<Chunk> := *;
      text := text - (if ok then chunks else gone * chunks);
    }

    /** Steps 4 to 8. What a success leaves of the graph is a function of the stores before, but for rebuilds that
        failed. */
    method PurgeDocument(d: Doc, chunks: set<Chunk>) returns (ok: bool)
      requires Valid() && d == doc && doc in rows && CacheRecorded() && chunks == base.purged
      modifies `graph, `tracking, `text, `degraded, `unwritten
      ensures Valid() && (!failing ==> ok && unwritten == {})
      ensures forall c :: c !in chunks ==> (c in text <==> c in old(text)) && (c in text ==> text[c] == old(text)[c])
      ensures Shrinks(old(text), text)
      ensures ok ==> text.Keys !! chunks && (Visible(base) ==> forall k :: k in base.graph ==> Done(k))
      ensures ok ==> graph == Purged(old(graph), old(PlanNow(d)), Archive(old(text), old(cache)), unwritten)
      ensures ok ==> TrackingPurged(old(PlanNow(d)), old(graph), old(tracking), tracking)
    {
      hide WellFormed, Visible, GraphWithin, TrackingWithin, CandidatesFor, ChunkIds;
      hide Repaired, Reachable, Classify, PlanFor, OnlyPlanned, CutOff, TrackingPurged, WritesPlanned;
      hide Rebuildable, Survivors, Referenced, Purged;
      var cands := CandidatesFor(d, rows[d], anchors);
      ghost var g0, t0 := graph, tracking;
      var p := ClassifyCandidates(graph, tracking, chunks, cands, BestEffort);
      PartialPlan(base, graph, tracking, cands);
      NothingWrittenYet(p, graph);
      unwritten := {};
      ok := UpdateTracking(p, g0);
      if !ok { return; }
      ghost var t1 := tracking;
      ok := DeleteChunkRows(chunks);
      if !ok { return; }
      ok := RemoveEdges(p, g0);
      if !ok { return; }
      ghost var g1, t2 := graph, tracking;
      ok := RemoveNodes(p, g0);
      if !ok { return; }
      ghost var t3 := tracking;
      CutIsComplete(p, g0, graph);
      ghost var cut := graph;
      ok := Rebuild(p, g0);
      if !ok { return; }
      DropsAreNotRebuilt(g0, t0, chunks, cands, BestEffort);
      TrackingSteps(p, g0, g1, cut.Keys, t0, t1, t2, t3, tracking);
      PlanAvoidsPurged(g0, t0, chunks, cands, BestEffort);
      PurgedRowsAreNotRead(Archive(old(text), cache), text, p, chunks);
      assert RowsRebuilt(cut, graph, p.rebuild.Keys, p, Archive(old(text), cache), unwritten);
      RebuiltIsPurged(g0, cut, p, Archive(old(text), cache), unwritten, graph);
      if Visible(base) {
        forall k | k in base.graph ensures Done(k) {
          AttemptRepairs(base, g0, t0, cands, graph, degraded, k);
        }
      }
    }

    // ---- The cache ids ----

    /** Collect, before anything is deleted, every cache id the document still references. On failure the ids in the
        metadata are at hand. */
    method CollectCacheIds(row: StatusRow, chunks: set<Chunk>) returns (ok: bool, ids: set<CacheId>)
      requires Valid() && doc in rows && row == rows[doc] && chunks == base.purged
      ensures row.deletionIds + row.parseIds <= ids && (!failing ==> ok)
      ensures ok ==> referenced * cache.Keys <= ids
      ensures forall id :: id in ids ==> LeadsTo(row, text, id)
      ensures ok ==> forall id :: LeadsTo(row, text, id) ==> id in ids
    {
      hide WellFormed, Visible, GraphWithin, TrackingWithin, CandidatesFor, ChunkIds, Repaired, LeadsTo, RowIds;
      forall id ensures LeadsTo(row, text, id) <==> id in row.deletionIds + row.parseIds + RowIds(text, ChunkIds(row)) {
        LeadsToIffCollected(row, text, id);
      }
      ids := row.deletionIds + row.parseIds;
      ok := Attempt();
      if ok { ids := ids + RowIds(text, chunks); }
    }

    /** _update_delete_retry_state: keep the ids for a retry; with none at hand, keep the ones kept before. */
    method UpdateRetryState(d: Doc, ids: set<CacheId>) returns (ok: bool)
      requires Valid() && d == doc && doc in rows
      requires rows[d].deletionIds <= ids || referenced * cache.Keys <= ids
      modifies `rows
      ensures Valid() && (!failing ==> ok)
      ensures rows == old(rows) || rows == old(rows)[d := old(rows)[d].(deletionIds := ids)]
      ensures ok && ids != {} ==> rows == old(rows)[d := old(rows)[d].(deletionIds := ids)]
      ensures ok && referenced * cache.Keys <= ids ==> CacheRecorded()
      ensures old(CacheRecorded()) ==> CacheRecorded()
    {
      hide WellFormed, Visible, GraphWithin, TrackingWithin, Repaired;
      ok := Attempt();
      if ok && ids != {} {
        rows := rows[d := rows[d].(deletionIds := ids)];
      }
    }

    /** Step 9: the cache entries, and a check that they are gone. What is still there stays on the list. */
    method DeleteCacheIds(ids: set<CacheId>) returns (ok: bool, left: set<CacheId>)
      requires Valid() && referenced * cache.Keys <= ids
      modifies `cache
      ensures Valid() && (!failing ==> ok)
      ensures referenced * cache.Keys <= left <= ids && Shrinks(old(cache), cache)
      ensures forall id :: id in old(cache) && id !in ids ==> id in cache
      ensures ok ==> referenced !! cache.Keys && ids !! cache.Keys
      ensures forall r :: old(CanRetry(r)) ==> CanRetry(r)
    {
      hide WellFormed, Visible, GraphWithin, TrackingWithin, CandidatesFor, ChunkIds, Repaired, RowIds;
      left := ids;
      ok := Attempt();
      var gone: set<CacheId> := *;
      cache := cache - (if ok then ids else gone * ids);
      if !ok { return; }
      var remaining := ids * cache.Keys;
      if remaining != {} {
        left := remaining;
        ok := false;
      }
    }

    // ---- adelete_by_doc_id ----

    /** Step 10: the anchor rows, once the graph is as it should be. */
    method DeleteAnchors(d: Doc) returns (ok: bool)
      requires Valid() && d == doc && doc in rows && (Visible(base) ==> forall k :: k in base.graph ==> Done(k))
      modifies `anchors
      ensures Valid() && (!failing ==> ok)
      ensures anchors <= old(anchors) && forall x :: x in old(anchors) && x.0 != d ==> x in anchors
      ensures
        || (forall k: Key :: k.Ent? ==> (d, k) !in anchors)
        || (forall k: Key :: k.Rel? && (d, k) in old(anchors) ==> (d, k) in anchors)
      ensures ok ==> forall k :: (d, k) !in anchors
    {
      hide WellFormed, Visible, GraphWithin, TrackingWithin, ChunkIds, Repaired, Reachable;
      if Visible(base) { AllDone(); }
      var names := Attempt();
      var pairs := Attempt();
      anchors := set x | x in anchors && !(x.0 == d && x.1.Ent? && names);
      if !names { return false; }
      anchors := set x | x in anchors && !(x.0 == d && x.1.Rel? && pairs);
      ok := pairs;
    }

    lemma AllDone()
      requires Valid() && forall k :: k in base.graph ==> Done(k)
      ensures forall k :: k in base.cands ==> Done(k)
    {
      forall k | k in base.cands && k !in base.graph { AbsentIsRepaired(base, graph, k); }
      hide WellFormed, Visible, GraphWithin, TrackingWithin, Repaired;
    }

    /** Step 11: the status row first, so that a retry after a failure finds no document rather than a row without
        a body. */
    method DeleteRecords(d: Doc) returns (ok: bool)
      requires Valid() && d == doc
      modifies `rows, `bodies
      ensures Valid() && (!failing ==> ok)
      ensures (rows == old(rows) || rows == old(rows) - {d}) && (bodies == old(bodies) || bodies == old(bodies) - {d})
      ensures d in rows ==> bodies == old(bodies)
      ensures ok ==> d !in rows && d !in bodies
    {
      hide WellFormed, Visible, GraphWithin, TrackingWithin, CandidatesFor, ChunkIds, Repaired, Reachable;
      ok := Attempt();
      var applied: bool := *;
      if ok || applied { rows := rows - {d}; }
      if !ok { return; }
      ok := Attempt();
      applied := *;
      if ok || applied { bodies := bodies - {d}; }
    }

    /** What a successful deletion has removed, and what it has left of the graph. */
    ghost predicate Deleted(d: Doc)
      reads this
    {
      && d !in rows && d !in bodies && (forall k :: (d, k) !in anchors) && text.Keys !! base.purged
      && (Visible(base) ==>
            (forall k :: k in base.graph ==> Done(k)) && (degraded == {} ==> graph == Target(base, BestEffort)))
    }

    /** The deletion of a document that owns chunks: cache ids first, then the purge, the cache if asked for, the
        anchors and the records. A failure before the records keeps the ids for the next attempt. */
    method DeleteWithChunks(d: Doc, deleteCache: bool) returns (ok: bool)
      requires Valid() && d == doc && d in rows
      modifies this
      ensures Valid() && (!failing ==> ok)
      ensures ok ==> Deleted(d) && d !in rows && d !in bodies && (deleteCache ==> referenced !! cache.Keys)
      ensures ok ==> graph == Purged(old(graph), old(PlanNow(d)), Archive(old(text), old(cache)), unwritten)
      ensures !failing ==> unwritten == {}
      ensures d in rows ==> bodies == old(bodies)
      ensures ok ==> TrackingPurged(old(PlanNow(d)), old(graph), old(tracking), tracking)
      ensures OnlyOwn(d, old(rows)[d], old(Kept()), Kept()) && (!deleteCache ==> cache == old(cache))
      ensures ok && deleteCache ==> forall id :: LeadsTo(old(rows)[d], old(text), id) ==> id !in cache
    {
      hide WellFormed, Visible, GraphWithin, TrackingWithin, CandidatesFor, Repaired, RowIds, Target, Purged, Classify;
      hide LeadsTo, OnlyOwn, Shrinks, SameBut, TrackingPurged, ChunkIds, CanRetry;
      var row := rows[d];
      var chunks := ChunkIds(row);
      RowNamesChunks();
      NothingTouched(d, row, Kept());
      ghost var a := Kept();
      var ids;
      ok, ids := CollectCacheIds(row, chunks);
      if ok { ok := UpdateRetryState(d, ids); }
      RowTouched(d, row, a, a, rows, bodies);
      CandidatesIgnoreIds(d, row, ids, anchors);
      unwritten := {};
      ghost var b := Kept();
      if ok {
        ok := PurgeDocument(d, chunks);
        TextTouched(d, row, a, b, text);
      }
      b := Kept();
      if ok && deleteCache {
        ok, ids := DeleteCacheIds(ids);
        CacheTouched(d, row, a, b, cache);
      }
      b := Kept();
      if ok {
        ok := DeleteAnchors(d);
        AnchorsTouched(d, row, a, b, anchors);
      }
      b := Kept();
      if !ok {
        var _ := UpdateRetryState(d, ids);
        RowTouched(d, row, a, b, rows, bodies);
        return;
      }
      if Visible(base) { AllRepairedUnlessDegraded(); }
      ok := DeleteRecords(d);
      RowTouched(d, row, a, b, rows, bodies);
    }

    lemma AllRepairedUnlessDegraded()
      requires Valid() && forall k :: k in base.graph ==> Done(k)
      ensures degraded == {} ==> graph == Target(base, BestEffort)
    {
      hide WellFormed, Visible, TrackingWithin, Repaired, Target, GraphWithin;
      if degraded == {} { AllRepairedIsTarget(base, graph); }
    }

    lemma RowNamesChunks()
      requires Valid() && doc in rows
      ensures ChunkIds(rows[doc]) == base.purged
    {
      hide WellFormed, Visible, GraphWithin, TrackingWithin, CandidatesFor, ChunkIds, Repaired, Reachable;
    }

    lemma NoChunkRows()
      requires Valid() && doc in rows && base.purged == {}
      ensures referenced * cache.Keys <= rows[doc].deletionIds + rows[doc].parseIds
      ensures forall id :: LeadsTo(rows[doc], text, id) <==> id in rows[doc].deletionIds + rows[doc].parseIds
    {
      hide WellFormed, Visible, GraphWithin, TrackingWithin, CandidatesFor, Repaired;
      var r := rows[doc];
      assert RowIds(text, {}) == {};
      forall id ensures LeadsTo(r, text, id) <==> id in r.deletionIds + r.parseIds { LeadsToIffCollected(r, text, id); }
    }

    /** The deletion of a document without chunks. Its failure handler writes back the row it read, even when that row
        has just been deleted: a failed body deletion brings the row back. */
    method DeleteWithoutChunks(d: Doc, deleteCache: bool) returns (ok: bool)
      requires Valid() && d == doc && d in rows && base.purged == {}
      modifies `rows, `bodies, `cache
      ensures Valid() && (!failing ==> ok)
      ensures ok ==> d !in rows && d !in bodies && (deleteCache ==> referenced !! cache.Keys)
      ensures !ok && d in rows ==> rows == old(rows)
      ensures OnlyOwn(d, old(rows)[d], old(Kept()), Kept()) && (!deleteCache ==> cache == old(cache))
      ensures ok && deleteCache ==> forall id :: LeadsTo(old(rows)[d], old(text), id) ==> id !in cache
    {
      hide WellFormed, Visible, GraphWithin, TrackingWithin, LeadsTo, OnlyOwn, Shrinks, SameBut, CanRetry;
      var row := rows[d];
      NoChunkRows();
      NothingTouched(d, row, Kept());
      ghost var a := Kept();
      ok := true;
      if deleteCache {
        var left;
        ok, left := DeleteCacheIds(row.deletionIds + row.parseIds);
        CacheTouched(d, row, a, a, cache);
      }
      ghost var b := Kept();
      if ok {
        ok := DeleteRecords(d);
        RowTouched(d, row, a, b, rows, bodies);
      }
      if !ok {
        var written := Attempt();
        if written {
          rows := rows[d := row];
          RowTouched(d, row, a, b, rows, bodies);
        }
      }
    }

    /** adelete_by_doc_id. Whatever fails, the store stays such that the next attempt can finish: the graph and the
        tracking rows are at most partly repaired, and every cache entry is still on record. What a success leaves of
        the graph is known beforehand, but for rebuilds that fail. It leaves no citation of the document's chunks
        exactly if every object to be rebuilt that cites one has something to be rebuilt from and was written, and
        nothing cites one that the attempt does not visit; with all anchors in place there is no such object.

        Whatever the outcome, nothing that belongs to other documents has changed, and the cache has only if that was
        asked for; then a success leaves none of the entries the document led to, and all others. */
    method Delete(d: Doc, deleteCache: bool) returns (outcome: Outcome)
      requires Valid() && d == doc
      modifies this
      ensures Valid()
      ensures outcome == NotFound <==> d !in old(rows)
      ensures outcome == NotFound ==> Kept() == old(Kept()) && graph == old(graph) && tracking == old(tracking)
      // What is purged and visited
      ensures d in old(rows) ==>
        && (forall c :: c in base.purged <==> c in old(rows)[d].chunks || c in old(rows)[d].staged)
        && (forall k :: k in old(Candidates(d)) <==> (d, k) in old(anchors) || k in old(rows)[d].stagedCands)
      ensures outcome == Success ==>
        forall c :: c in old(rows)[d].chunks || c in old(rows)[d].staged ==> c !in text
      // What is left alone
      ensures forall e :: e != d ==>
        && (e in rows <==> e in old(rows)) && (e in rows ==> rows[e] == old(rows)[e])
        && (e in bodies <==> e in old(bodies))
        && forall k :: (e, k) in anchors <==> (e, k) in old(anchors)
      ensures forall c :: c in text ==> c in old(text) && text[c] == old(text)[c]
      ensures d in old(rows) ==>
        forall c :: c in old(text) && c !in old(rows)[d].chunks && c !in old(rows)[d].staged ==> c in text
      ensures !deleteCache ==> cache == old(cache)
      ensures forall id :: id in cache ==> id in old(cache) && cache[id] == old(cache)[id]
      ensures d in old(rows) ==> forall id :: id in old(cache) && !LeadsTo(old(rows)[d], old(text), id) ==> id in cache
      ensures outcome == Success && deleteCache ==> forall id :: LeadsTo(old(rows)[d], old(text), id) ==> id !in cache
      ensures outcome == Fail && d in rows ==>
        && rows[d] == old(rows)[d].(deletionIds := rows[d].deletionIds)
        && forall id :: id in rows[d].deletionIds ==> LeadsTo(old(rows)[d], old(text), id)
      // What the graph and the tracking rows become
      ensures outcome == Success ==> d !in rows && d !in bodies && (deleteCache ==> referenced !! cache.Keys)
      ensures outcome == Success && base.purged != {} ==> Deleted(d)
      ensures outcome == Success && base.purged != {} ==>
        graph == Purged(old(graph), old(PlanNow(d)), Archive(old(text), old(cache)), unwritten)
      ensures outcome == Success && base.purged != {} ==>
        (NothingCites(graph, base.purged)
         <==> CitingAreRebuildable(old(graph), old(PlanNow(d)), Archive(old(text), old(cache)), base.purged)
              && CitingAreWritten(old(graph), old(PlanNow(d)), unwritten, base.purged)
              && UnvisitedAreClean(old(graph), old(PlanNow(d)), old(Candidates(d)), base.purged))
      ensures outcome == Success && old(Candidates(d)) == base.cands ==>
        UnvisitedAreClean(old(graph), old(PlanNow(d)), base.cands, base.purged)
      ensures outcome == Success && base.purged != {} ==>
        var p := old(PlanNow(d));
        forall k ::
          if k in p.drop || (k in old(graph) && CutOff(p, k)) then k !in tracking
          else if k in p.rebuild then k in tracking && tracking[k] == p.rebuild[k]
          else (k in tracking <==> k in old(tracking)) && (k in tracking ==> tracking[k] == old(tracking)[k])
      ensures d in old(rows) && base.purged == {} ==> graph == old(graph) && tracking == old(tracking)
      ensures d in rows && base.purged != {} ==> bodies == old(bodies)
      ensures !failing ==> outcome != Fail
      ensures !failing && outcome == Success && base.purged != {} ==> unwritten == {}
    {
      hide WellFormed, Visible, GraphWithin, TrackingWithin, Repaired, CanRetry, CutOff, LeadsTo;
      hide Classify, Purged, NothingCites, CitingAreRebuildable, CitingAreWritten, UnvisitedAreClean;
      if d !in rows { return NotFound; }
      RowNamesChunks();
      PurgeIsCleanIf(d);
      var ok;
      if ChunkIds(rows[d]) == {} {
        ok := DeleteWithoutChunks(d, deleteCache);
      } else {
        ok := DeleteWithChunks(d, deleteCache);
      }
      return if ok then Success else Fail;
    }

    lemma PurgeIsCleanIf(d: Doc)
      requires Valid() && d == doc && d in rows
      ensures forall u {:trigger Purged(graph, PlanNow(d), Archive(text, cache), u)} ::
        NothingCites(Purged(graph, PlanNow(d), Archive(text, cache), u), base.purged)
        <==> CitingAreRebuildable(graph, PlanNow(d), Archive(text, cache), base.purged)
             && CitingAreWritten(graph, PlanNow(d), u, base.purged)
             && UnvisitedAreClean(graph, PlanNow(d), Candidates(d), base.purged)
      ensures Candidates(d) == base.cands ==> UnvisitedAreClean(graph, PlanNow(d), base.cands, base.purged)
    {
      hide WellFormed, Visible, GraphWithin, TrackingWithin, CandidatesFor, ChunkIds, Repaired, Reachable;
      hide Classify, Purged, NothingCites, CitingAreRebuildable, CitingAreWritten, UnvisitedAreClean;
      PurgeIsCleanIff(base, graph, tracking, Candidates(d), Archive(text, cache), {});
      forall u { PurgeIsCleanIff(base, graph, tracking, Candidates(d), Archive(text, cache), u); }
    }

    /** Deletion conservation. A first attempt in which no write fails leaves exactly the citations of other documents'
        chunks if and only if whatever is to be rebuilt can be; which objects it leaves does not depend on that. */
    lemma DeletionConserves(d: Doc)
      requires Valid() && d == doc && d in rows && Candidates(d) == base.cands && tracking == base.tracking
      requires graph == base.graph && forall k :: k in base.graph ==> base.graph[k] == Full(base, k)
      ensures
        var p, a := PlanNow(d), Archive(text, cache);
        var after := Purged(graph, p, a, {});
        && ((forall k, c :: Cites(after, k, c) <==> Cites(graph, k, c) && c !in base.purged)
            <==> forall k :: k in p.rebuild ==> Rebuildable(a, p, Survivors(graph, p), k))
        && (forall k :: k in after <==> k in graph && graph[k] - base.purged != {})
        && EndpointsPresent(after)
    {
      hide WellFormed, Visible, GraphWithin, TrackingWithin, CandidatesFor, ChunkIds, Repaired, Reachable;
      hide Classify, Purged, Rebuildable, Survivors, Full;
      DeletionConservesIff(base, Archive(text, cache));
    }
  }

  // ---- A successful deletion that leaves a citation ----

  /** Documents "a" and "b" both mention Ada; nothing is cached. Deleting "a" succeeds, its chunk row is gone, and Ada
      still cites it. */
  method DeletedChunkStaysCited() returns (s: DocumentStore, c: Chunk)
    ensures s.doc == "a" && "a" !in s.rows && c in s.base.purged && c !in s.text && Cites(s.graph, Ent("Ada"), c)
  {
    hide LeadsTo, NothingCites, CitingAreRebuildable, CitingAreWritten, UnvisitedAreClean, Visible, GraphWithin;
    hide TrackingWithin;
    var ada := Ent("Ada");
    c := Filed("a", "1", "x");
    var other := Filed("b", "2", "y");
    var row := StatusRow([c], [], {}, {}, {});
    var rows := map["a" := row, "b" := StatusRow([other], [], {}, {}, {})];
    var graph := map[ada := {c, other}];
    var anchors := {("a", ada), ("b", ada)};
    assert ChunkIds(row) == {c} && CandidatesFor("a", row, anchors) == {ada};
    s := new DocumentStore("a", graph, graph, map[c := {}, other := {}], anchors, {"a", "b"}, rows, map[], false);
    ghost var p := s.PlanNow("a");
    assert Existing(graph, graph, ada) == {c, other} && other !in {c};
    assert ada in Survivors(graph, p);
    EmptyCacheRebuildsNothing(graph, p, Archive(s.text, s.cache), {});
    var outcome := s.Delete("a", false);
    assert outcome == Success;
    assert ada in s.graph && s.graph[ada] == graph[ada];
  }
}
