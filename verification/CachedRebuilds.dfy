/** rebuild_knowledge_from_chunks under the best-effort policy: what it finds to rebuild an object from, which objects
it therefore leaves as they are, and when that lets a purge fail its purpose. */
module CachedRebuilds {
  import opened Kg
  import opened Purge

  type CacheId = string

  /** An entry of the LLM cache: an extraction result with its chunk and what its text parses to, or anything else. */
  datatype CacheEntry = Extracted(chunk: Chunk, found: Extraction) | OtherEntry

  /** The chunk rows, each with the cache ids it lists, and the cache. */
  datatype Archive = Archive(rows: map<Chunk, set<CacheId>>, cache: map<CacheId, CacheEntry>)

  // ---- What there is to rebuild from ----

  /** The chunks that any rebuild of the plan refers to. */
  function Referenced(p: Plan): set<Chunk> {
    set k, c | k in p.rebuild && c in p.rebuild[k] :: c
  }

  function Listed(a: Archive, chunks: set<Chunk>): set<CacheId> {
    set c, id | c in chunks && c in a.rows && id in a.rows[c] :: id
  }

  /** An extraction of one of the sources that a referenced chunk row leads to. */
  predicate Offers(a: Archive, p: Plan, sources: set<Chunk>, id: CacheId) {
    id in Listed(a, Referenced(p)) && id in a.cache && a.cache[id].Extracted? && a.cache[id].chunk in sources
  }

  predicate Names(x: Extraction, k: Key) {
    match k
    case Ent(n) => n in x.nodes
    case Rel(_, _) => exists e | e in x.edges :: EdgeKey(e.0, e.1) == k
  }

  /** Without a single cached extraction the rebuild returns at once. */
  predicate AnythingCached(a: Archive, p: Plan) {
    exists id | id in Listed(a, Referenced(p)) :: Offers(a, p, Referenced(p), id)
  }

  predicate NamedInCache(a: Archive, p: Plan, k: Key)
    requires k in p.rebuild
  {
    exists id | id in Listed(a, Referenced(p)) :: Offers(a, p, p.rebuild[k], id) && Names(a.cache[id].found, k)
  }

  /** An object is rebuilt if a cached extraction of a remaining source names it; an entity also if it has an edge.
      `live` holds the objects of the graph. */
  predicate Rebuildable(a: Archive, p: Plan, live: set<Key>, k: Key) {
    && k in p.rebuild && AnythingCached(a, p)
    && (NamedInCache(a, p, k) || (k.Ent? && exists e | e in live :: Touches(e, k.name)))
  }

  /** The cache holds what was extracted from chunk c, under an id that the row of some remaining source lists. */
  ghost predicate HoldsExtraction(a: Archive, p: Plan, c: Chunk, found: Extraction) {
    exists j, source, id ::
      && j in p.rebuild && source in p.rebuild[j] && source in a.rows && id in a.rows[source]
      && id in a.cache && a.cache[id] == Extracted(c, found)
  }

  lemma HoldsIfListed(a: Archive, p: Plan, id: CacheId)
    requires id in Listed(a, Referenced(p)) && id in a.cache && a.cache[id].Extracted?
    ensures HoldsExtraction(a, p, a.cache[id].chunk, a.cache[id].found)
  {
    var source :| source in Referenced(p) && source in a.rows && id in a.rows[source];
    var j :| j in p.rebuild && source in p.rebuild[j];
    assert a.cache[id] == Extracted(a.cache[id].chunk, a.cache[id].found);
  }

  lemma ListedIfHolds(a: Archive, p: Plan, c: Chunk, found: Extraction) returns (id: CacheId)
    requires HoldsExtraction(a, p, c, found)
    ensures id in Listed(a, Referenced(p)) && id in a.cache && a.cache[id] == Extracted(c, found)
  {
    var j, source, i :| j in p.rebuild && source in p.rebuild[j] && source in a.rows && i in a.rows[source]
      && i in a.cache && a.cache[i] == Extracted(c, found);
    id := i;
    assert source in Referenced(p);
  }

  /** What there is to rebuild object k from, in terms of the plan, the chunk rows and the cache. */
  lemma NamedIff(a: Archive, p: Plan, k: Key)
    requires k in p.rebuild
    ensures NamedInCache(a, p, k)
      <==> exists c, found :: c in p.rebuild[k] && HoldsExtraction(a, p, c, found) && Names(found, k)
  {
    hide Listed, Referenced, Names;
    if NamedInCache(a, p, k) {
      var id :| id in Listed(a, Referenced(p)) && Offers(a, p, p.rebuild[k], id) && Names(a.cache[id].found, k);
      HoldsIfListed(a, p, id);
    }
    if c, found :| c in p.rebuild[k] && HoldsExtraction(a, p, c, found) && Names(found, k) {
      var id := ListedIfHolds(a, p, c, found);
      assert Offers(a, p, p.rebuild[k], id);
    }
  }

  lemma AnythingCachedIff(a: Archive, p: Plan)
    ensures AnythingCached(a, p)
      <==> exists j, c, found :: j in p.rebuild && c in p.rebuild[j] && HoldsExtraction(a, p, c, found)
  {
    hide Listed;
    if AnythingCached(a, p) {
      var id :| id in Listed(a, Referenced(p)) && Offers(a, p, Referenced(p), id);
      HoldsIfListed(a, p, id);
      var j :| j in p.rebuild && a.cache[id].chunk in p.rebuild[j];
    }
    if j, c, found :| j in p.rebuild && c in p.rebuild[j] && HoldsExtraction(a, p, c, found) {
      var id := ListedIfHolds(a, p, c, found);
      assert c in Referenced(p) && Offers(a, p, Referenced(p), id);
    }
  }

  function Survivors(g: Provenance, p: Plan): set<Key> {
    set k | k in g && k !in p.drop && !CutOff(p, k)
  }

  /** The graph after a best-effort purge with this plan. The rebuild of an `unwritten` object failed, which is logged
      and ignored. */
  function Purged(g: Provenance, p: Plan, a: Archive, unwritten: set<Key>): Provenance {
    map k | k in Survivors(g, p) :: if Rebuildable(a, p, Survivors(g, p), k) && k !in unwritten then p.rebuild[k]
      else g[k]
  }

  /** The chunk rows that the purge itself deletes are not among those it reads. */
  lemma PurgedRowsAreNotRead(a: Archive, rows: map<Chunk, set<CacheId>>, p: Plan, purged: set<Chunk>)
    requires Referenced(p) !! purged
    requires forall c :: c !in purged ==> (c in rows <==> c in a.rows) && (c in rows ==> rows[c] == a.rows[c])
    ensures AnythingCached(a.(rows := rows), p) == AnythingCached(a, p)
    ensures forall live, k :: Rebuildable(a.(rows := rows), p, live, k) == Rebuildable(a, p, live, k)
  {
    var a' := a.(rows := rows);
    assert Listed(a', Referenced(p)) == Listed(a, Referenced(p)) by {
      assert forall c :: c in Referenced(p) ==> c !in purged;
    }
    hide Listed, Referenced;
    assert forall sources, id :: Offers(a', p, sources, id) == Offers(a, p, sources, id);
    hide Offers;
    assert forall k :: k in p.rebuild ==> NamedInCache(a', p, k) == NamedInCache(a, p, k);
  }

  lemma PlanAvoidsPurged(g: Provenance, t: Provenance, purged: set<Chunk>, cands: set<Key>, policy: Policy)
    ensures Referenced(Classify(g, t, purged, cands, policy)) !! purged
  {
    hide Existing, Rebuilds;
  }

  // ---- When the purge is complete ----

  predicate NothingCites(g: Provenance, chunks: set<Chunk>) {
    forall k | k in g :: g[k] * chunks == {}
  }

  /** Every object to be rebuilt whose graph row cites a purged chunk can be rebuilt: a question about the store
      before the purge. */
  predicate CitingAreRebuildable(g: Provenance, p: Plan, a: Archive, purged: set<Chunk>) {
    forall k | k in p.rebuild && k in g && g[k] * purged != {} :: Rebuildable(a, p, Survivors(g, p), k)
  }

  predicate CitingAreWritten(g: Provenance, p: Plan, unwritten: set<Key>, purged: set<Chunk>) {
    forall k | k in unwritten :: k in p.rebuild && k in g ==> g[k] * purged == {}
  }

  /** What no attempt would rebuild cites no purged chunk; what it rebuilds stays in the graph. */
  lemma UnplannedIsClean(b: Base, g: Provenance, t: Provenance, k: Key)
    requires WellFormed(b) && GraphWithin(b, BestEffort, g) && TrackingWithin(b, t) && k in g
    ensures
      var p := Classify(g, t, b.purged, b.cands, BestEffort);
      && (k in Survivors(g, p) && k !in p.rebuild ==> g[k] * b.purged == {})
      && (k in p.rebuild ==> k in Survivors(g, p) && p.rebuild[k] * b.purged == {})
  {
    var p := Classify(g, t, b.purged, b.cands, BestEffort);
    PlansAgree(b, BestEffort, g, t);
    ClassifiedPlan(b, BestEffort, g, t);
    UnaffectedKeepsAll(b, k);
    RemainingAvoidsPurged(b, k);
    if k in p.rebuild && CutOff(p, k) { CutOffIsDoomed(b, BestEffort, p, k); }
    if Doomed(b, k) { DoomedIsCandidate(b, k); }
    hide Classify, Existing, Full, Remaining, TrackingWithin, CutOff;
  }

  /** What this attempt neither visits nor cuts off cites no purged chunk: as an attempt that finds all candidates may
      take for granted. */
  predicate UnvisitedAreClean(g: Provenance, p: Plan, cands: set<Key>, purged: set<Chunk>) {
    forall k | k in Survivors(g, p) && k !in cands :: g[k] * purged == {}
  }

  /** A retry that finds only part of the candidates plans for those as one that finds them all. */
  lemma VisitedIsClean(b: Base, g: Provenance, t: Provenance, cands: set<Key>, k: Key)
    requires WellFormed(b) && GraphWithin(b, BestEffort, g) && TrackingWithin(b, t) && cands <= b.cands && k in g
    ensures
      var p := Classify(g, t, b.purged, cands, BestEffort);
      && (k in Survivors(g, p) && k !in p.rebuild && (k in cands || cands == b.cands) ==> g[k] * b.purged == {})
      && (k in p.rebuild ==> k in Survivors(g, p) && p.rebuild[k] * b.purged == {})
  {
    var p, whole := Classify(g, t, b.purged, cands, BestEffort), Classify(g, t, b.purged, b.cands, BestEffort);
    assert p.drop <= whole.drop && (k in p.rebuild ==> k in whole.rebuild && p.rebuild[k] == whole.rebuild[k]);
    assert k in cands ==> (k in whole.drop ==> k in p.drop) && (k in whole.rebuild ==> k in p.rebuild);
    UnplannedIsClean(b, g, t, k);
    PlansAgree(b, BestEffort, g, t);
    hide Classify, Existing, Full, Remaining, GraphWithin, TrackingWithin, WellFormed, Doomed;
    assert CutOff(p, k) ==> CutOff(whole, k);
  }

  /** After a best-effort purge nothing cites a purged chunk if and only if every object to be rebuilt that cites one
      has something to be rebuilt from and was written, and nothing out of the attempt's sight cites one, whatever
      interrupted attempts came before. An attempt that finds all candidates has nothing out of its sight. */
  lemma PurgeIsCleanIff(b: Base, g: Provenance, t: Provenance, cands: set<Key>, a: Archive, unwritten: set<Key>)
    requires WellFormed(b) && GraphWithin(b, BestEffort, g) && TrackingWithin(b, t) && cands <= b.cands
    ensures
      var p := Classify(g, t, b.purged, cands, BestEffort);
      && (NothingCites(Purged(g, p, a, unwritten), b.purged)
          <==> CitingAreRebuildable(g, p, a, b.purged) && CitingAreWritten(g, p, unwritten, b.purged)
               && UnvisitedAreClean(g, p, cands, b.purged))
      && (cands == b.cands ==> UnvisitedAreClean(g, p, cands, b.purged))
  {
    var p := Classify(g, t, b.purged, cands, BestEffort);
    forall k | k in g { VisitedIsClean(b, g, t, cands, k); }
    assert forall k :: k in p.rebuild ==> k in cands;
    hide Classify, Rebuildable, Survivors, GraphWithin, TrackingWithin, WellFormed;
    var r := Purged(g, p, a, unwritten);
    SurvivorsAreOld(g, p);
    if NothingCites(r, b.purged) {
      forall k | k in p.rebuild && k in g && g[k] * b.purged != {}
        ensures Rebuildable(a, p, Survivors(g, p), k) && k !in unwritten
      {
        assert k in r;
      }
      forall k | k in Survivors(g, p) && k !in cands ensures g[k] * b.purged == {} { assert k in r; }
    }
  }

  lemma SurvivorsAreOld(g: Provenance, p: Plan)
    ensures forall k :: k in Survivors(g, p) ==> k in g
  {
  }

  /** And it leaves exactly what one uninterrupted purge with complete rebuilds leaves if and only if every object that
      a rebuild would change has something to be rebuilt from and was written. */
  lemma PurgeRepairsIff(b: Base, g: Provenance, t: Provenance, a: Archive, unwritten: set<Key>)
    requires WellFormed(b) && Visible(b) && GraphWithin(b, BestEffort, g) && TrackingWithin(b, t)
    ensures
      var p := Classify(g, t, b.purged, b.cands, BestEffort);
      Purged(g, p, a, unwritten) == Target(b, BestEffort)
      <==> forall k :: k in p.rebuild && k in g && g[k] != p.rebuild[k] ==>
        Rebuildable(a, p, Survivors(g, p), k) && k !in unwritten
  {
    SurvivorsAreTarget(b, g, t);
    hide Classify, Target, Rebuildable, Survivors, GraphWithin, TrackingWithin, WellFormed, Visible;
    PurgedIs(g, Classify(g, t, b.purged, b.cands, BestEffort), a, unwritten, Target(b, BestEffort));
  }

  lemma PurgedIs(g: Provenance, p: Plan, a: Archive, unwritten: set<Key>, target: Provenance)
    requires Survivors(g, p) == target.Keys && forall k :: k in p.rebuild ==> k in target && target[k] == p.rebuild[k]
    requires forall k :: k in target && k !in p.rebuild ==> target[k] == g[k]
    ensures Purged(g, p, a, unwritten) == target
      <==> forall k :: k in p.rebuild && k in g && g[k] != p.rebuild[k] ==>
        Rebuildable(a, p, Survivors(g, p), k) && k !in unwritten
  {
    var r := Purged(g, p, a, unwritten);
    SurvivorsAreOld(g, p);
    assert forall k :: Rebuildable(a, p, Survivors(g, p), k) ==> k in p.rebuild;
    hide Rebuildable, Survivors;
    assert r.Keys == target.Keys;
    if r == target {
      forall k | k in p.rebuild && k in g && g[k] != p.rebuild[k]
        ensures Rebuildable(a, p, Survivors(g, p), k) && k !in unwritten
      {
        assert r[k] == p.rebuild[k];
      }
    }
  }

  lemma SurvivorsAreTarget(b: Base, g: Provenance, t: Provenance)
    requires WellFormed(b) && Visible(b) && GraphWithin(b, BestEffort, g) && TrackingWithin(b, t)
    ensures
      var p, target := Classify(g, t, b.purged, b.cands, BestEffort), Target(b, BestEffort);
      && Survivors(g, p) == target.Keys
      && (forall k :: k in p.rebuild ==> k in Survivors(g, p) && target[k] == p.rebuild[k])
      && forall k :: k in Survivors(g, p) && k !in p.rebuild ==> target[k] == g[k]
  {
    var p, target := Classify(g, t, b.purged, b.cands, BestEffort), Target(b, BestEffort);
    PurgeConverges(b, BestEffort, g, t);
    assert PurgeResult(g, t, b, BestEffort).Keys == Survivors(g, p);
    forall k | k in p.rebuild ensures k in Survivors(g, p) {
      assert k in g by { hide Existing; }
      UnplannedIsClean(b, g, t, k);
    }
    hide Classify, Target, WellFormed, Visible, GraphWithin, TrackingWithin;
  }

  // ---- What a deletion means for the graph ----

  /** The plan of a first attempt. */
  function FirstPlan(b: Base): Plan {
    Classify(b.graph, b.tracking, b.purged, b.cands, BestEffort)
  }

  /** Deletion conservation. Exactly the citations of other chunks survive if and only if whatever is to be rebuilt
      can be. Which objects survive does not depend on that. */
  lemma DeletionConservesIff(b: Base, a: Archive)
    requires WellFormed(b) && forall k :: k in b.graph ==> b.graph[k] == Full(b, k)
    ensures
      var r := Purged(b.graph, FirstPlan(b), a, {});
      && ((forall k, c :: Cites(r, k, c) <==> Cites(b.graph, k, c) && c !in b.purged)
          <==> forall k :: k in FirstPlan(b).rebuild ==>
            Rebuildable(a, FirstPlan(b), Survivors(b.graph, FirstPlan(b)), k))
      && (forall k :: k in r <==> k in b.graph && b.graph[k] - b.purged != {})
      && EndpointsPresent(r)
  {
    hide FirstPlan, Full, Target, Rebuildable, Survivors, WellFormed, Purged;
    var r, target := Purged(b.graph, FirstPlan(b), a, {}), Target(b, BestEffort);
    FirstPurge(b, a);
    TargetConserves(b, BestEffort);
    SameCitations(r, target);
  }

  lemma FirstPurge(b: Base, a: Archive)
    requires WellFormed(b) && forall k :: k in b.graph ==> b.graph[k] == Full(b, k)
    ensures
      var p, target := FirstPlan(b), Target(b, BestEffort);
      var r := Purged(b.graph, p, a, {});
      && r.Keys == target.Keys
      && (r == target <==> forall k :: k in p.rebuild ==> Rebuildable(a, p, Survivors(b.graph, p), k))
  {
    BaseIsWithin(b, BestEffort);
    assert Visible(b);
    FirstRebuildsCite(b);
    SurvivorsAreTarget(b, b.graph, b.tracking);
    PurgeRepairsIff(b, b.graph, b.tracking, a, {});
    hide Classify, Full, Target, Rebuildable, Survivors, WellFormed, Visible, GraphWithin, TrackingWithin;
  }

  lemma SameCitations(r: Provenance, target: Provenance)
    requires r.Keys == target.Keys
    ensures r == target <==> forall k, c :: Cites(r, k, c) <==> Cites(target, k, c)
  {
    if forall k, c :: Cites(r, k, c) <==> Cites(target, k, c) {
      forall k | k in r ensures r[k] == target[k] {
        assert forall c :: Cites(r, k, c) == (c in r[k]) && Cites(target, k, c) == (c in target[k]);
      }
    }
  }

  lemma FirstRebuildsCite(b: Base)
    requires forall k :: k in b.graph ==> b.graph[k] == Full(b, k)
    ensures forall k :: k in FirstPlan(b).rebuild ==> k in b.graph && b.graph[k] != FirstPlan(b).rebuild[k]
  {
    forall k | k in FirstPlan(b).rebuild ensures k in b.graph && b.graph[k] != FirstPlan(b).rebuild[k] {
      var c :| c in b.graph[k] * b.purged;
      assert c !in FirstPlan(b).rebuild[k];
    }
  }

  /** With nothing in the cache no rebuild takes place at all. */
  lemma EmptyCacheRebuildsNothing(g: Provenance, p: Plan, a: Archive, unwritten: set<Key>)
    requires forall id :: id in a.cache ==> a.cache[id].OtherEntry?
    ensures forall k :: k in Purged(g, p, a, unwritten) ==> Purged(g, p, a, unwritten)[k] == g[k]
  {
    assert forall sources, id :: !Offers(a, p, sources, id);
    hide Offers;
    assert !AnythingCached(a, p);
  }

  /** The chunk rows of a purge go after its rebuilds. Nothing then cites a chunk without a row under that same
      condition. */
  lemma NothingDanglesIff(b: Base, g: Provenance, t: Provenance, a: Archive, unwritten: set<Key>, rows: set<Chunk>)
    requires WellFormed(b) && GraphWithin(b, BestEffort, g) && TrackingWithin(b, t)
    requires forall k, c :: k in b.graph && c in Full(b, k) ==> c in rows
    ensures
      var p := Classify(g, t, b.purged, b.cands, BestEffort);
      (forall k, c :: Cites(Purged(g, p, a, unwritten), k, c) ==> c in rows - b.purged)
      <==> CitingAreRebuildable(g, p, a, b.purged) && CitingAreWritten(g, p, unwritten, b.purged)
  {
    PurgeIsCleanIff(b, g, t, b.cands, a, unwritten);
    PurgedCitesOld(b, g, t, a, unwritten);
    var r := Purged(g, Classify(g, t, b.purged, b.cands, BestEffort), a, unwritten);
    hide Classify, Purged, WellFormed, GraphWithin, TrackingWithin, CitingAreRebuildable, CitingAreWritten, Full;
    CitesNone(r, b.purged);
  }

  lemma CitesNone(r: Provenance, chunks: set<Chunk>)
    ensures NothingCites(r, chunks) <==> forall k, c :: Cites(r, k, c) ==> c !in chunks
  {
    forall k | k in r ensures r[k] * chunks == {} <==> forall c :: Cites(r, k, c) ==> c !in chunks {
      assert r[k] * chunks == {} <==> forall c :: c in r[k] ==> c !in chunks by { Apart(r[k], chunks); }
    }
  }

  lemma Apart(a: set<Chunk>, b: set<Chunk>)
    ensures a * b == {} <==> forall c :: c in a ==> c !in b
  {
    assert forall c :: c in a && c in b ==> c in a * b;
    assert forall c :: c in a * b ==> c in a && c in b;
  }

  lemma PurgedCitesOld(b: Base, g: Provenance, t: Provenance, a: Archive, unwritten: set<Key>)
    requires WellFormed(b) && GraphWithin(b, BestEffort, g) && TrackingWithin(b, t)
    ensures
      var r := Purged(g, Classify(g, t, b.purged, b.cands, BestEffort), a, unwritten);
      forall k, c :: Cites(r, k, c) ==> k in b.graph && c in Full(b, k)
  {
    var p := Classify(g, t, b.purged, b.cands, BestEffort);
    PlansAgree(b, BestEffort, g, t);
    SurvivorsAreOld(g, p);
    hide Classify, Rebuildable, Survivors, Full, TrackingWithin, Doomed;
  }
}
