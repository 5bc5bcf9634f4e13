/** The knowledge graph as provenance: which chunks support which entities and relations.

Descriptions, weights, embeddings and the vector stores are not part of the model; an entity or a
relation is the set of chunk ids in its `source_id` field. */
module Kg {
  type Doc = string

  /** A chunk id, which is scoped to one document (see module Identity), with the text its row stores. */
  datatype Chunk = Custom(doc: Doc, text: string) | Filed(doc: Doc, id: string, text: string)

  /** An object of the graph. Relations are undirected and kept with their endpoints in sorted order. */
  datatype Key = Ent(name: string) | Rel(src: string, tgt: string)

  type Provenance = map<Key, set<Chunk>>

  function Sources(p: Provenance, k: Key): set<Chunk> {
    if k in p then p[k] else {}
  }

  predicate Cites(p: Provenance, k: Key, c: Chunk) {
    k in p && c in p[k]
  }

  /** The rows of `from` for these keys, the rows of `to` for all others. */
  function Overlay(to: Provenance, from: Provenance, keys: set<Key>): Provenance {
    map k | k in to.Keys + from.Keys && (if k in keys then k in from else k in to) ::
      if k in keys then from[k] else to[k]
  }

  predicate Touches(e: Key, name: string) {
    e.Rel? && (e.src == name || e.tgt == name)
  }

  /** Removing a node takes its edges with it. */
  function RemoveNode(g: Provenance, name: string): Provenance {
    map k | k in g && k != Ent(name) && !Touches(k, name) :: g[k]
  }

  ghost predicate EndpointsPresent(g: Provenance) {
    forall k :: k in g && k.Rel? ==> Ent(k.src) in g && Ent(k.tgt) in g
  }

  // ---- Undirected edges ----

  /** Python's order on strings: by character code, a proper prefix first. */
  predicate LexLeq(a: string, b: string) {
    a == [] || (b != [] && (a[0] < b[0] || (a[0] == b[0] && LexLeq(a[1..], b[1..]))))
  }

  lemma {:induction false} LexAntisymmetric(a: string, b: string)
    requires LexLeq(a, b) && LexLeq(b, a)
    ensures a == b
  {
    if a != [] && b != [] {
      LexAntisymmetric(a[1..], b[1..]);
      assert a == [a[0]] + a[1..] && b == [b[0]] + b[1..];
    }
  }

  lemma {:induction false} LexTotal(a: string, b: string)
    ensures LexLeq(a, b) || LexLeq(b, a)
  {
    if a != [] && b != [] {
      LexTotal(a[1..], b[1..]);
    }
  }

  function EdgeKey(a: string, b: string): (e: Key)
    ensures e.Rel?
  {
    if LexLeq(a, b) then Rel(a, b) else Rel(b, a)
  }

  /** An edge and its reverse share one key, and different edges do not. */
  lemma EdgeKeyIdentifiesTheUndirectedPair(a: string, b: string, c: string, d: string)
    ensures EdgeKey(a, b) == EdgeKey(c, d) <==> {a, b} == {c, d}
  {
    LexTotal(a, b);
    LexTotal(c, d);
    if LexLeq(a, b) && LexLeq(b, a) {
      LexAntisymmetric(a, b);
    }
    if {a, b} == {c, d} {
      assert a in {c, d} && b in {c, d} && c in {a, b} && d in {a, b};
    }
  }

  // ---- Extraction and merge candidates ----

  /** What extraction found in one chunk. */
  datatype Extraction = Extraction(nodes: set<string>, edges: set<(string, string)>)

  /** The objects a merge gives the chunk to: mentioned entities, relations and their endpoints.
      A self-loop is never merged. */
  function Contributed(x: Extraction): set<Key> {
    (set n | n in x.nodes :: Ent(n))
    + (set e | e in x.edges && e.0 != e.1 :: EdgeKey(e.0, e.1))
    + (set e | e in x.edges && e.0 != e.1 :: Ent(e.0))
    + (set e | e in x.edges && e.0 != e.1 :: Ent(e.1))
  }

  /** The candidate superset journaled before a merge. */
  function Candidates(x: Extraction): set<Key> {
    (set n | n in x.nodes :: Ent(n))
    + (set e | e in x.edges :: EdgeKey(e.0, e.1))
    + (set e | e in x.edges :: Ent(e.0))
    + (set e | e in x.edges :: Ent(e.1))
  }

  function CandidatesOf(ex: Chunk -> Extraction, chunks: set<Chunk>): set<Key> {
    set c, k | c in chunks && k in Candidates(ex(c)) :: k
  }

  function ContributedBy(ex: Chunk -> Extraction, chunks: set<Chunk>): set<Key> {
    set c, k | c in chunks && k in Contributed(ex(c)) :: k
  }

  /** Every object a merge may write is a candidate, and both key sets hold a relation's endpoints. */
  lemma CandidatesCoverContributions(x: Extraction)
    ensures Contributed(x) <= Candidates(x)
    ensures forall k :: k in Contributed(x) && k.Rel? ==> Ent(k.src) in Contributed(x) && Ent(k.tgt) in Contributed(x)
    ensures forall k :: k in Candidates(x) && k.Rel? ==> Ent(k.src) in Candidates(x) && Ent(k.tgt) in Candidates(x)
  {
    forall k | k in Candidates(x) && k.Rel?
      ensures Ent(k.src) in Candidates(x) && Ent(k.tgt) in Candidates(x)
      ensures k in Contributed(x) ==> Ent(k.src) in Contributed(x) && Ent(k.tgt) in Contributed(x)
    {
      var e :| e in x.edges && k == EdgeKey(e.0, e.1);
      if k in Contributed(x) {
        var f :| f in x.edges && f.0 != f.1 && k == EdgeKey(f.0, f.1);
      }
    }
  }

  lemma CandidatesOfCover(ex: Chunk -> Extraction, chunks: set<Chunk>)
    ensures ContributedBy(ex, chunks) <= CandidatesOf(ex, chunks)
    ensures forall k :: k in CandidatesOf(ex, chunks) && k.Rel? ==>
      Ent(k.src) in CandidatesOf(ex, chunks) && Ent(k.tgt) in CandidatesOf(ex, chunks)
  {
    forall c { CandidatesCoverContributions(ex(c)); }
    forall k | k in CandidatesOf(ex, chunks) && k.Rel?
      ensures Ent(k.src) in CandidatesOf(ex, chunks) && Ent(k.tgt) in CandidatesOf(ex, chunks)
    {
      var c :| c in chunks && k in Candidates(ex(c));
    }
  }

  // ---- Classification of purge candidates ----

  datatype Policy = BestEffort | Rollback

  /** Candidates to remove outright, and those to rebuild with their remaining sources. */
  datatype Plan = Plan(drop: set<Key>, rebuild: Provenance)

  /** The sources a purge starts from: the tracking row, or the graph when that row is missing or empty. */
  function Existing(g: Provenance, t: Provenance, k: Key): set<Chunk> {
    if Sources(t, k) != {} then t[k] else Sources(g, k)
  }

  predicate Drops(g: Provenance, t: Provenance, purged: set<Chunk>, k: Key) {
    k in g && Existing(g, t, k) <= purged
  }

  predicate Rebuilds(g: Provenance, t: Provenance, purged: set<Chunk>, policy: Policy, k: Key) {
    k in g && !(Existing(g, t, k) <= purged)
    && (Existing(g, t, k) * purged != {} || g[k] * purged != {} || policy == Rollback)
  }

  function Classify(g: Provenance, t: Provenance, purged: set<Chunk>, cands: set<Key>, policy: Policy): Plan {
    Plan(set k | k in cands && Drops(g, t, purged, k),
         map k | k in cands && Rebuilds(g, t, purged, policy, k) :: Existing(g, t, k) - purged)
  }

  lemma ClassifyOneMore(g: Provenance, t: Provenance, purged: set<Chunk>, cands: set<Key>, k: Key, policy: Policy)
    ensures
      var p, p' := Classify(g, t, purged, cands, policy), Classify(g, t, purged, cands + {k}, policy);
      && p'.drop == (if Drops(g, t, purged, k) then p.drop + {k} else p.drop)
      && p'.rebuild == (if Rebuilds(g, t, purged, policy, k) then p.rebuild[k := Existing(g, t, k) - purged]
           else p.rebuild)
  {
    hide Drops, Rebuilds;
  }

  lemma RemainingFacts(existing: set<Chunk>, purged: set<Chunk>)
    ensures existing - purged == {} <==> existing <= purged
    ensures existing - purged != existing <==> existing * purged != {}
  {
    if existing - purged == {} {
      forall c | c in existing ensures c in purged { assert c !in existing - purged; }
    }
    if existing * purged == {} {
      assert forall c :: c in existing ==> c !in existing * purged;
    }
  }

  lemma NothingToClassify(g: Provenance, t: Provenance, purged: set<Chunk>, policy: Policy)
    ensures Classify(g, t, purged, {}, policy) == Plan({}, map[])
  {
  }

  /** Which candidates to remove and which to rebuild, and with what: read from the tracking rows, or from the
      graph where there is none. A candidate that is not in the graph is skipped. */
  method ClassifyCandidates(graph: Provenance, tracking: Provenance, purged: set<Chunk>, cands: set<Key>,
                            policy: Policy)
    returns (plan: Plan)
    ensures plan == Classify(graph, tracking, purged, cands, policy)
  {
    hide Classify;
    plan := Plan({}, map[]);
    assert plan == Classify(graph, tracking, purged, {}, policy) by {
      NothingToClassify(graph, tracking, purged, policy);
    }
    var todo := cands;
    assert cands - todo == {};
    while todo != {}
      invariant todo <= cands && plan == Classify(graph, tracking, purged, cands - todo, policy)
      decreases todo
    {
      var k :| k in todo;
      ClassifyOneMore(graph, tracking, purged, cands - todo, k, policy);
      assert cands - (todo - {k}) == (cands - todo) + {k};
      if k in graph {
        var existing := Sources(tracking, k);
        if existing == {} { existing := graph[k]; }
        var remaining := existing - purged;
        RemainingFacts(existing, purged);
        if remaining == {} {
          plan := plan.(drop := plan.drop + {k});
        } else if remaining != existing || graph[k] * purged != {} || policy == Rollback {
          plan := plan.(rebuild := plan.rebuild[k := remaining]);
        }
      }
      todo := todo - {k};
    }
    assert cands - todo == cands;
  }
}
