/** What a merge that runs to the end makes of the graph: the closed form in module Leak, whatever the order in which it
takes the entities and the relations. */
module MergeResult {
  import opened Kg
  import opened Options
  import opened Protocol
  import Leak

  function Mentioning(ex: Chunk -> Extraction, staged: set<Chunk>, n: string): set<Chunk> {
    set c | c in staged && n in ex(c).nodes
  }

  /** The sources a relation is merged with. */
  function RelationSources(ex: Chunk -> Extraction, st: Stores, staged: set<Chunk>, e: Key): set<Chunk> {
    Existing(st.graph, st.tracking, e) + NewSources(ex, staged, e)
  }

  /** The sources an entity has from these relations. */
  function FromRelations(ex: Chunk -> Extraction, st: Stores, staged: set<Chunk>, rels: set<Key>,
                         n: string): set<Chunk> {
    set e, c | e in rels && Touches(e, n) && c in RelationSources(ex, st, staged, e) :: c
  }

  /** The object has been written once these entities and relations are merged. */
  predicate IsWritten(names: set<string>, rels: set<Key>, k: Key) {
    match k
    case Ent(n) => n in names || exists e | e in rels :: Touches(e, n)
    case Rel(_, _) => k in rels
  }

  /** The sources of object k at that point, from the stores before the merge. */
  ghost function SoFar(ex: Chunk -> Extraction, st: Stores, staged: set<Chunk>, names: set<string>, rels: set<Key>,
                       k: Key): set<Chunk> {
    if !IsWritten(names, rels, k) then Sources(st.graph, k)
    else if k.Rel? then RelationSources(ex, st, staged, k)
    else Leak.ReadFor(ex, st, staged, k) + (if k.name in names then Mentioning(ex, staged, k.name) else {})
         + FromRelations(ex, st, staged, rels, k.name)
  }

  /** The entities `names` and the relations `rels` have been merged into st0. What was written reads as it was written;
      what was not still reads as before. */
  ghost predicate Merged(ex: Chunk -> Extraction, st0: Stores, st: Stores, staged: set<Chunk>, names: set<string>,
                         rels: set<Key>) {
    forall k :: KeyMerged(ex, st0, st, staged, names, rels, k)
  }

  ghost predicate KeyMerged(ex: Chunk -> Extraction, st0: Stores, st: Stores, staged: set<Chunk>, names: set<string>,
                            rels: set<Key>, k: Key) {
    && (k in st.graph <==> k in st0.graph || IsWritten(names, rels, k))
    && (k in st.graph ==> st.graph[k] == SoFar(ex, st0, staged, names, rels, k))
    && (if IsWritten(names, rels, k) then Existing(st.graph, st.tracking, k) == SoFar(ex, st0, staged, names, rels, k)
        else Sources(st.tracking, k) == Sources(st0.tracking, k))
  }

  lemma NothingMerged(ex: Chunk -> Extraction, st: Stores, staged: set<Chunk>)
    ensures Merged(ex, st, st, staged, {}, {})
  {
    hide Existing;
    forall k ensures KeyMerged(ex, st, st, staged, {}, {}, k) {}
  }

  // ---- One entity ----

  lemma EntityMerged(ex: Chunk -> Extraction, st0: Stores, st: Stores, st': Stores, staged: set<Chunk>,
                     names: set<string>, n: string)
    requires Merged(ex, st0, st, staged, names, {}) && n !in names && Mentioning(ex, staged, n) != {}
    requires
      var v := Existing(st.graph, st.tracking, Ent(n)) + Mentioning(ex, staged, n);
      st'.graph == st.graph[Ent(n) := v] && st'.tracking == st.tracking[Ent(n) := v]
    ensures Merged(ex, st0, st', staged, names + {n}, {})
  {
    assert KeyMerged(ex, st0, st, staged, names, {}, Ent(n));
    forall k ensures KeyMerged(ex, st0, st', staged, names + {n}, {}, k) {
      assert KeyMerged(ex, st0, st, staged, names, {}, k);
      assert k != Ent(n) ==> (IsWritten(names + {n}, {}, k) <==> IsWritten(names, {}, k));
      if k == Ent(n) {
        var c :| c in Mentioning(ex, staged, n);
        assert !Leak.Overwritten(ex, st0, staged, k);
        assert FromRelations(ex, st0, staged, {}, n) == {};
      }
    }
  }

  // ---- One relation ----

  /** The endpoint n of relation e is created with the relation's sources, or extended by them. */
  ghost predicate EndpointWritten(st: Stores, st': Stores, n: string, e: Key)
    requires e in st.tracking
  {
    var k, full := Ent(n), st.tracking[e];
    var existing := Existing(st.graph, st.tracking, k);
    if k !in st.graph then st'.graph == st.graph[k := full] && st'.tracking == st.tracking[k := full]
    else
      && st'.graph == st.graph[k := existing + full]
      && (st'.tracking == st.tracking[k := existing + full]
           || (st'.tracking == st.tracking && existing + full == existing))
  }

  predicate SameAt(st: Stores, st': Stores, k: Key) {
    && (k in st.graph <==> k in st'.graph) && (k in st.graph ==> st.graph[k] == st'.graph[k])
    && Sources(st.tracking, k) == Sources(st'.tracking, k)
  }

  lemma SameIsMerged(ex: Chunk -> Extraction, st0: Stores, st: Stores, st': Stores, staged: set<Chunk>,
                     names: set<string>, rels: set<Key>, e: Key, k: Key)
    requires KeyMerged(ex, st0, st, staged, names, rels, k) && SameAt(st, st', k)
    requires e.Rel? && k != e && (k.Ent? ==> !Touches(e, k.name))
    ensures KeyMerged(ex, st0, st', staged, names, rels + {e}, k)
  {
    assert IsWritten(names, rels + {e}, k) == IsWritten(names, rels, k);
    assert k.Ent? ==>
      FromRelations(ex, st0, staged, rels + {e}, k.name) == FromRelations(ex, st0, staged, rels, k.name) by {
      hide RelationSources;
    }
    hide IsWritten, FromRelations, RelationSources, Leak.ReadFor, Mentioning;
  }

  lemma FromOneMore(ex: Chunk -> Extraction, st: Stores, staged: set<Chunk>, rels: set<Key>, e: Key, n: string)
    requires Touches(e, n)
    ensures FromRelations(ex, st, staged, rels + {e}, n)
      == FromRelations(ex, st, staged, rels, n) + RelationSources(ex, st, staged, e)
  {
    hide RelationSources;
  }

  /** Every entity that a staged chunk mentions is among the names. */
  ghost predicate AllNames(ex: Chunk -> Extraction, staged: set<Chunk>, names: set<string>) {
    forall n :: n in names <==> exists c :: c in staged && n in ex(c).nodes
  }

  /** What the endpoint has before its relation is merged. */
  lemma EndpointBefore(ex: Chunk -> Extraction, st0: Stores, m: Stores, staged: set<Chunk>, names: set<string>,
                       rels: set<Key>, n: string)
    requires KeyMerged(ex, st0, m, staged, names, rels, Ent(n)) && AllNames(ex, staged, names)
    ensures (if Ent(n) in m.graph then Existing(m.graph, m.tracking, Ent(n)) else {})
      == Leak.ReadFor(ex, st0, staged, Ent(n)) + (if n in names then Mentioning(ex, staged, n) else {})
         + FromRelations(ex, st0, staged, rels, n)
  {
    var k := Ent(n);
    if !IsWritten(names, rels, k) {
      assert FromRelations(ex, st0, staged, rels, n) == {} by { hide RelationSources; }
      assert k !in m.graph <==> Leak.Overwritten(ex, st0, staged, k);
    }
    hide FromRelations, Mentioning, AllNames, Leak.Overwritten;
  }

  lemma EndpointIsMerged(ex: Chunk -> Extraction, st0: Stores, m0: Stores, st: Stores, st': Stores, staged: set<Chunk>,
                         names: set<string>, rels: set<Key>, e: Key, n: string)
    requires KeyMerged(ex, st0, m0, staged, names, rels, Ent(n)) && SameAt(m0, st, Ent(n))
    requires AllNames(ex, staged, names)
    requires e in st.tracking && st.tracking[e] == RelationSources(ex, st0, staged, e) && st.tracking[e] != {}
    requires Touches(e, n) && EndpointWritten(st, st', n, e)
    ensures KeyMerged(ex, st0, st', staged, names, rels + {e}, Ent(n))
  {
    hide KeyMerged, IsWritten, FromRelations, RelationSources, Mentioning;
    hide AllNames, Leak.ReadFor, Existing, EndpointWritten, SameAt;
    var k := Ent(n);
    EndpointBefore(ex, st0, m0, staged, names, rels, n);
    SameReads(m0, st, k);
    EndpointAfter(st, st', n, e);
    FromOneMore(ex, st0, staged, rels, e, n);
    Regroup(Leak.ReadFor(ex, st0, staged, k), if n in names then Mentioning(ex, staged, n) else {},
            FromRelations(ex, st0, staged, rels, n), st.tracking[e]);
    TouchedIsWritten(names, rels, e, n);
    WrittenIsMerged(ex, st0, st', staged, names, rels + {e}, k);
  }

  lemma SameReads(st: Stores, st': Stores, k: Key)
    requires SameAt(st, st', k)
    ensures k in st.graph <==> k in st'.graph
    ensures Existing(st.graph, st.tracking, k) == Existing(st'.graph, st'.tracking, k)
  {
  }

  lemma TouchedIsWritten(names: set<string>, rels: set<Key>, e: Key, n: string)
    requires Touches(e, n)
    ensures IsWritten(names, rels + {e}, Ent(n))
  {
    assert e in rels + {e};
  }

  lemma WrittenIsMerged(ex: Chunk -> Extraction, st0: Stores, st: Stores, staged: set<Chunk>,
                        names: set<string>, rels: set<Key>, k: Key)
    requires IsWritten(names, rels, k) && k in st.graph
    requires st.graph[k] == Existing(st.graph, st.tracking, k) == SoFar(ex, st0, staged, names, rels, k)
    ensures KeyMerged(ex, st0, st, staged, names, rels, k)
  {
    hide IsWritten, SoFar, Existing;
  }

  lemma Regroup(a: set<Chunk>, b: set<Chunk>, c: set<Chunk>, d: set<Chunk>)
    ensures a + b + c + d == a + b + (c + d)
  {
  }

  lemma EndpointAfter(st: Stores, st': Stores, n: string, e: Key)
    requires e in st.tracking && st.tracking[e] != {} && EndpointWritten(st, st', n, e)
    ensures
      var k := Ent(n);
      var after := (if k in st.graph then Existing(st.graph, st.tracking, k) else {}) + st.tracking[e];
      k in st'.graph && st'.graph[k] == after && Existing(st'.graph, st'.tracking, k) == after
  {
  }

  /** The relation's tracking row, both endpoints, and the edge. */
  ghost predicate EdgeWritten(m0: Stores, m1: Stores, m2: Stores, m3: Stores, m4: Stores, e: Key, full: set<Chunk>) {
    && e.Rel? && e.src != e.tgt && full != {}
    && m1 == m0.(tracking := m0.tracking[e := full])
    && EndpointWritten(m1, m2, e.src, e)
    && e in m2.tracking && EndpointWritten(m2, m3, e.tgt, e)
    && m4 == m3.(graph := m3.graph[e := full])
  }

  lemma EndpointLeavesOthers(st: Stores, st': Stores, n: string, e: Key, k: Key)
    requires e in st.tracking && EndpointWritten(st, st', n, e) && k != Ent(n)
    ensures SameAt(st, st', k) && (k in st.tracking <==> k in st'.tracking)
    ensures k in st.tracking ==> st.tracking[k] == st'.tracking[k]
  {
    hide Existing;
  }

  /** Which stores agree where. */
  lemma EdgeChain(m0: Stores, m1: Stores, m2: Stores, m3: Stores, m4: Stores, e: Key, full: set<Chunk>)
    requires EdgeWritten(m0, m1, m2, m3, m4, e, full)
    ensures SameAt(m0, m1, Ent(e.src)) && SameAt(m2, m4, Ent(e.src)) && SameAt(m0, m2, Ent(e.tgt))
    ensures SameAt(m3, m4, Ent(e.tgt))
    ensures e in m1.tracking && m1.tracking[e] == full && m2.tracking[e] == full
    ensures e in m4.graph && m4.graph[e] == full && e in m4.tracking && m4.tracking[e] == full
    ensures forall k :: k != e && k != Ent(e.src) && k != Ent(e.tgt) ==> SameAt(m0, m4, k)
  {
    EndpointLeavesOthers(m1, m2, e.src, e, e);
    EndpointLeavesOthers(m2, m3, e.tgt, e, e);
    EndpointLeavesOthers(m1, m2, e.src, e, Ent(e.tgt));
    EndpointLeavesOthers(m2, m3, e.tgt, e, Ent(e.src));
    forall k | k != e && k != Ent(e.src) && k != Ent(e.tgt) ensures SameAt(m0, m4, k) {
      EndpointLeavesOthers(m1, m2, e.src, e, k);
      EndpointLeavesOthers(m2, m3, e.tgt, e, k);
    }
    hide EndpointWritten;
  }

  lemma EdgeKeyIsMerged(ex: Chunk -> Extraction, st0: Stores, m0: Stores, m4: Stores, staged: set<Chunk>,
                        names: set<string>, rels: set<Key>, e: Key, full: set<Chunk>)
    requires KeyMerged(ex, st0, m0, staged, names, rels, e) && e.Rel? && e !in rels && full != {}
    requires full == Existing(m0.graph, m0.tracking, e) + NewSources(ex, staged, e)
    requires e in m4.graph && m4.graph[e] == full && e in m4.tracking && m4.tracking[e] == full
    ensures full == RelationSources(ex, st0, staged, e) && KeyMerged(ex, st0, m4, staged, names, rels + {e}, e)
  {
    hide NewSources;
  }

  lemma RelationMerged(ex: Chunk -> Extraction, st0: Stores, m0: Stores, m1: Stores, m2: Stores, m3: Stores, m4: Stores,
                       staged: set<Chunk>, names: set<string>, rels: set<Key>, e: Key, full: set<Chunk>)
    requires Merged(ex, st0, m0, staged, names, rels) && AllNames(ex, staged, names) && e !in rels
    requires EdgeWritten(m0, m1, m2, m3, m4, e, full)
    requires full == Existing(m0.graph, m0.tracking, e) + NewSources(ex, staged, e)
    ensures Merged(ex, st0, m4, staged, names, rels + {e})
  {
    hide KeyMerged, SameAt, EndpointWritten, Existing, NewSources, AllNames, RelationSources;
    EdgeChain(m0, m1, m2, m3, m4, e, full);
    assert KeyMerged(ex, st0, m0, staged, names, rels, e);
    EdgeKeyIsMerged(ex, st0, m0, m4, staged, names, rels, e, full);
    forall k ensures KeyMerged(ex, st0, m4, staged, names, rels + {e}, k) {
      assert KeyMerged(ex, st0, m0, staged, names, rels, k);
      if k == Ent(e.src) {
        EndpointIsMerged(ex, st0, m0, m1, m2, staged, names, rels, e, e.src);
        CarriedOver(ex, st0, m2, m4, staged, names, rels + {e}, k);
      } else if k == Ent(e.tgt) {
        EndpointIsMerged(ex, st0, m0, m2, m3, staged, names, rels, e, e.tgt);
        CarriedOver(ex, st0, m3, m4, staged, names, rels + {e}, k);
      } else if k != e {
        SameIsMerged(ex, st0, m0, m4, staged, names, rels, e, k);
      }
    }
  }

  lemma CarriedOver(ex: Chunk -> Extraction, st0: Stores, st: Stores, st': Stores, staged: set<Chunk>,
                    names: set<string>, rels: set<Key>, k: Key)
    requires KeyMerged(ex, st0, st, staged, names, rels, k) && SameAt(st, st', k)
    ensures KeyMerged(ex, st0, st', staged, names, rels, k)
  {
    hide SoFar, IsWritten;
  }

  // ---- The whole merge ----

  /** The relations the staged chunks state; a self-loop is not merged. */
  ghost predicate AllRelations(ex: Chunk -> Extraction, staged: set<Chunk>, rels: set<Key>) {
    forall k :: k in rels <==> k.Rel? && k in ContributedBy(ex, staged)
  }

  /** An entity gets a chunk through its own mention or through a relation of the chunk. */
  lemma EntityContributed(x: Extraction, n: string)
    ensures Ent(n) in Contributed(x) <==> n in x.nodes || exists e :: e in Contributed(x) && Touches(e, n)
  {
    CandidatesCoverContributions(x);
    EntityIsEndpoint(x, n);
    assert n in x.nodes ==> Ent(n) in Contributed(x);
    hide Contributed, Candidates;
  }

  lemma EntityIsEndpoint(x: Extraction, n: string)
    ensures Ent(n) in Contributed(x) && n !in x.nodes ==> exists e :: e in Contributed(x) && Touches(e, n)
  {
    if Ent(n) in Contributed(x) && n !in x.nodes {
      var p :| p in x.edges && p.0 != p.1 && (p.0 == n || p.1 == n);
      var e := EdgeKey(p.0, p.1);
      assert e in Contributed(x);
      hide Contributed;
      assert Touches(e, n);
    }
  }

  lemma WrittenIsContributed(ex: Chunk -> Extraction, staged: set<Chunk>, names: set<string>, rels: set<Key>, k: Key)
    requires AllNames(ex, staged, names) && AllRelations(ex, staged, rels)
    ensures IsWritten(names, rels, k) <==> k in ContributedBy(ex, staged)
  {
    hide Contributed;
    if k.Ent? {
      forall c { EntityContributed(ex(c), k.name); }
      if k in ContributedBy(ex, staged) && k.name !in names {
        var c :| c in staged && k in Contributed(ex(c));
        var e :| e in Contributed(ex(c)) && Touches(e, k.name);
        assert e in rels;
      }
    }
  }

  lemma SourceOfEntity(ex: Chunk -> Extraction, staged: set<Chunk>, rels: set<Key>, n: string, c: Chunk)
    requires AllRelations(ex, staged, rels)
    ensures c in NewSources(ex, staged, Ent(n))
      <==> c in Mentioning(ex, staged, n) || exists e :: e in rels && Touches(e, n) && c in NewSources(ex, staged, e)
  {
    hide Contributed;
    EntityContributed(ex(c), n);
    if c in staged {
      forall e | e in Contributed(ex(c)) && Touches(e, n) ensures e in rels {}
    }
  }

  lemma EntitySources(ex: Chunk -> Extraction, st: Stores, staged: set<Chunk>, names: set<string>, rels: set<Key>,
                      n: string)
    requires AllNames(ex, staged, names) && AllRelations(ex, staged, rels)
    ensures (if n in names then Mentioning(ex, staged, n) else {}) + FromRelations(ex, st, staged, rels, n)
         == NewSources(ex, staged, Ent(n)) + IncidentSources(ex, st, staged, Ent(n))
  {
    assert n !in names ==> Mentioning(ex, staged, n) == {};
    forall c { SourceOfEntity(ex, staged, rels, n, c); }
    assert forall e :: e in rels && Touches(e, n) <==> e in ContributedBy(ex, staged) && Touches(e, n);
    hide Contributed, ContributedBy, NewSources, Existing, AllRelations, AllNames, Mentioning;
    forall c { SplitRelations(ex, st, staged, rels, n, c); }
    hide FromRelations, IncidentSources;
  }

  lemma SplitRelations(ex: Chunk -> Extraction, st: Stores, staged: set<Chunk>, rels: set<Key>, n: string, c: Chunk)
    requires forall e :: e in rels && Touches(e, n) <==> e in ContributedBy(ex, staged) && Touches(e, n)
    ensures c in FromRelations(ex, st, staged, rels, n)
      <==>
      (exists e :: e in rels && Touches(e, n) && c in NewSources(ex, staged, e))
      || c in IncidentSources(ex, st, staged, Ent(n))
  {
    hide ContributedBy, NewSources, Existing;
    if c in FromRelations(ex, st, staged, rels, n) {
      var e :| e in rels && Touches(e, n) && c in RelationSources(ex, st, staged, e);
      assert e in ContributedBy(ex, staged);
    }
    if e :| e in rels && Touches(e, n) && c in NewSources(ex, staged, e) {
      assert c in RelationSources(ex, st, staged, e);
    }
    if c in IncidentSources(ex, st, staged, Ent(n)) {
      var e :| e in ContributedBy(ex, staged) && Touches(e, n) && c in Existing(st.graph, st.tracking, e);
      assert e in rels && c in RelationSources(ex, st, staged, e);
    }
  }

  /** With all entities and relations merged, the graph is the closed form. */
  lemma KeyIsClosedForm(ex: Chunk -> Extraction, st0: Stores, st: Stores, staged: set<Chunk>, names: set<string>,
                        rels: set<Key>, k: Key)
    requires KeyMerged(ex, st0, st, staged, names, rels, k) && AllNames(ex, staged, names)
    requires AllRelations(ex, staged, rels)
    ensures
      var g := Leak.MergedGraph(ex, st0, staged);
      (k in st.graph <==> k in g) && (k in g ==> st.graph[k] == g[k])
  {
    WrittenIsContributed(ex, staged, names, rels, k);
    if k.Ent? { EntitySources(ex, st0, staged, names, rels, k.name); }
    hide IsWritten, FromRelations, Mentioning, NewSources;
    hide ContributedBy, AllNames, AllRelations, Existing, Leak.Overwritten;
  }

  lemma MergedIsClosedForm(ex: Chunk -> Extraction, st0: Stores, st: Stores, staged: set<Chunk>, names: set<string>,
                           rels: set<Key>)
    requires Merged(ex, st0, st, staged, names, rels) && AllNames(ex, staged, names) && AllRelations(ex, staged, rels)
    ensures st.graph == Leak.MergedGraph(ex, st0, staged)
  {
    hide Leak.MergedGraph, KeyMerged, AllNames, AllRelations;
    forall k ensures (k in st.graph <==> k in Leak.MergedGraph(ex, st0, staged))
      && (k in st.graph ==> st.graph[k] == Leak.MergedGraph(ex, st0, staged)[k])
    {
      assert KeyMerged(ex, st0, st, staged, names, rels, k);
      KeyIsClosedForm(ex, st0, st, staged, names, rels, k);
    }
  }

  // ---- The loops ----

  function MentionedNames(ex: Chunk -> Extraction, staged: set<Chunk>): set<string> {
    set c, n | c in staged && n in ex(c).nodes :: n
  }

  lemma NamesAreAll(ex: Chunk -> Extraction, staged: set<Chunk>)
    ensures AllNames(ex, staged, MentionedNames(ex, staged))
  {
  }

  function StatedPairs(ex: Chunk -> Extraction, staged: set<Chunk>): set<Key> {
    set c, x | c in staged && x in ex(c).edges :: EdgeKey(x.0, x.1)
  }

  /** Without the self-loops. */
  function Relations(pairs: set<Key>): set<Key> {
    set e | e in pairs && e.Rel? && e.src != e.tgt
  }

  lemma PairsAreAll(ex: Chunk -> Extraction, staged: set<Chunk>)
    ensures AllRelations(ex, staged, Relations(StatedPairs(ex, staged)))
  {
    forall k | k in Relations(StatedPairs(ex, staged)) ensures k in ContributedBy(ex, staged) {
      var c, x :| c in staged && x in ex(c).edges && k == EdgeKey(x.0, x.1);
      assert k in Contributed(ex(c));
    }
    forall k: Key | k.Rel? && k in ContributedBy(ex, staged) ensures k in Relations(StatedPairs(ex, staged)) {
      var c :| c in staged && k in Contributed(ex(c));
      var x :| x in ex(c).edges && x.0 != x.1 && k == EdgeKey(x.0, x.1);
    }
  }

  lemma NextPair(pairs: set<Key>, todo: set<Key>, e: Key)
    requires todo <= pairs && e in todo && e.Rel?
    ensures e !in Relations(pairs - todo)
    ensures Relations(pairs - (todo - {e})) == if e.src == e.tgt then Relations(pairs - todo)
      else Relations(pairs - todo) + {e}
  {
  }
}
