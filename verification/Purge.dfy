/** The candidate-driven purge of a set of chunks, and why rerunning it converges.

A purge classifies the candidates it finds in the graph and then issues many separate writes. It may fail after
any of them, and stores may persist their writes in any order before a crash, so a rerun can meet any mixture
of old and new rows. */
module Purge {
  import opened Kg

  /** What the first attempt met, and what it was asked to purge. */
  datatype Base = Base(graph: Provenance, tracking: Provenance, purged: set<Chunk>, cands: set<Key>)

  /** The sources of an object before the purge. Its tracking row may name more chunks than the graph does. */
  function Full(b: Base, k: Key): set<Chunk> {
    Existing(b.graph, b.tracking, k)
  }

  function Remaining(b: Base, k: Key): set<Chunk> {
    Full(b, k) - b.purged
  }

  predicate Doomed(b: Base, k: Key) {
    Full(b, k) <= b.purged
  }

  /** Every object has a source, every edge lies within both endpoints, and the candidates include every object
      that a purged chunk supports. */
  ghost predicate WellFormed(b: Base) {
    && (forall k :: k in b.graph ==> b.graph[k] != {} && b.graph[k] <= Full(b, k))
    && (forall k :: k in b.graph && k.Rel? ==>
          Ent(k.src) in b.graph && Ent(k.tgt) in b.graph
          && Full(b, k) <= Full(b, Ent(k.src)) && Full(b, k) <= Full(b, Ent(k.tgt)))
    && (forall k :: k in b.graph && Full(b, k) * b.purged != {} ==> k in b.cands)
  }

  predicate Affected(b: Base, policy: Policy, k: Key) {
    k in b.cands && (policy == Rollback || Full(b, k) * b.purged != {})
  }

  /** What an uninterrupted purge leaves: doomed objects gone, affected ones with exactly their remaining sources. */
  function Target(b: Base, policy: Policy): Provenance {
    map k | k in b.graph && !Doomed(b, k) :: if Affected(b, policy, k) then Remaining(b, k) else b.graph[k]
  }

  /** The graph after one purge that runs to the end. */
  function PurgeResult(g: Provenance, t: Provenance, b: Base, policy: Policy): Provenance {
    var p := Classify(g, t, b.purged, b.cands, policy);
    map k | k in g && k !in p.drop && !CutOff(p, k) :: if k in p.rebuild then p.rebuild[k] else g[k]
  }

  /** The edge goes with a dropped endpoint. */
  predicate CutOff(p: Plan, k: Key) {
    k.Rel? && (Ent(k.src) in p.drop || Ent(k.tgt) in p.drop)
  }

  // ---- What interrupted purges can leave behind ----

  /** Each graph row is the old one or the repaired one; only doomed objects can be missing. */
  ghost predicate GraphWithin(b: Base, policy: Policy, g: Provenance) {
    && (forall k :: k in g ==> k in b.graph)
    && (forall k :: k in g ==>
          g[k] == b.graph[k] || (Affected(b, policy, k) && !Doomed(b, k) && g[k] == Remaining(b, k)))
    && (forall k :: k in b.graph && !Doomed(b, k) ==> k in g)
  }

  /** Each tracking row is the old one or the repaired one; only rows of doomed objects can be missing. */
  ghost predicate TrackingWithin(b: Base, t: Provenance) {
    && (forall k :: k in b.graph && !Doomed(b, k) ==>
          Sources(t, k) == Sources(b.tracking, k) || (k in b.cands && Sources(t, k) == Remaining(b, k)))
    && (forall k :: k in b.graph && Doomed(b, k) ==> Sources(t, k) == Sources(b.tracking, k) || Sources(t, k) == {})
  }

  lemma BaseIsWithin(b: Base, policy: Policy)
    ensures GraphWithin(b, policy, b.graph) && TrackingWithin(b, b.tracking)
  {
  }

  /** What a purge reads for an object does not depend on how far earlier attempts came. */
  lemma ReadsAreStable(b: Base, policy: Policy, g: Provenance, t: Provenance, k: Key)
    requires WellFormed(b) && GraphWithin(b, policy, g) && TrackingWithin(b, t) && k in g
    ensures Existing(g, t, k) - b.purged == Remaining(b, k)
    ensures Existing(g, t, k) <= b.purged <==> Doomed(b, k)
    ensures !Doomed(b, k) ==> Existing(g, t, k) == Full(b, k) || (k in b.cands && Existing(g, t, k) == Remaining(b, k))
  {
    if !Doomed(b, k) {
      var c :| c in Full(b, k) && c !in b.purged;
      assert c in Remaining(b, k);
    }
  }

  lemma UnaffectedReads(b: Base, policy: Policy, g: Provenance, t: Provenance, k: Key)
    requires WellFormed(b) && GraphWithin(b, policy, g) && TrackingWithin(b, t) && k in g
    ensures k in b.cands && !Doomed(b, k) && Full(b, k) * b.purged == {} ==>
      Existing(g, t, k) * b.purged == {} && g[k] * b.purged == {}
  {
    ReadsAreStable(b, policy, g, t, k);
    UnaffectedKeepsAll(b, k);
    hide Existing, Full;
  }

  /** So every attempt plans the same repair: only doomed objects are dropped, and what is rebuilt gets
      exactly its remaining sources. */
  lemma PlansAgree(b: Base, policy: Policy, g: Provenance, t: Provenance)
    requires WellFormed(b) && GraphWithin(b, policy, g) && TrackingWithin(b, t)
    ensures
      var p := Classify(g, t, b.purged, b.cands, policy);
      && p.drop == (set k | k in b.cands && k in g && Doomed(b, k))
      && (forall k :: k in p.rebuild ==>
            Affected(b, policy, k) && k in g && !Doomed(b, k) && p.rebuild[k] == Remaining(b, k))
      && (forall k :: k in g && k in b.cands && !Doomed(b, k) && k !in p.rebuild ==>
            policy == BestEffort && Existing(g, t, k) * b.purged == {} && g[k] * b.purged == {})
      && (forall k :: k in p.rebuild && policy == BestEffort ==>
            Existing(g, t, k) * b.purged != {} || g[k] * b.purged != {})
  {
    hide Existing, Doomed, Remaining, GraphWithin, TrackingWithin, WellFormed, Full;
    forall k | k in g { ReadsAreStable(b, policy, g, t, k); }
    forall k | k in g { UnaffectedReads(b, policy, g, t, k); }
  }

  // ---- Every write keeps within ----

  /** One purge write, under any plan computed from a state within. */
  datatype Write =
    | SetTracking(k: Key)
    | DropTracking(k: Key)
    | DropEdge(k: Key)
    | DropNode(name: string)
    | SetGraph(k: Key)

  ghost predicate Allowed(b: Base, g: Provenance, p: Plan, w: Write) {
    match w
    case SetTracking(k) => k in p.rebuild
    case DropTracking(k) => k in p.drop || (k in g && CutOff(p, k))
    case DropEdge(k) => k in p.drop && k.Rel?
    case DropNode(n) => Ent(n) in p.drop
    case SetGraph(k) => k in p.rebuild && k in g
  }

  /** The plan of some attempt on this base. */
  ghost predicate PlanFor(b: Base, policy: Policy, p: Plan) {
    && (forall k :: k in p.drop ==> k in b.graph && Doomed(b, k))
    && (forall k :: k in p.rebuild ==>
          Affected(b, policy, k) && k in b.graph && !Doomed(b, k) && p.rebuild[k] == Remaining(b, k))
  }

  lemma ClassifiedPlan(b: Base, policy: Policy, g: Provenance, t: Provenance)
    requires WellFormed(b) && GraphWithin(b, policy, g) && TrackingWithin(b, t)
    ensures PlanFor(b, policy, Classify(g, t, b.purged, b.cands, policy))
  {
    PlansAgree(b, policy, g, t);
    hide Classify, Doomed, Remaining;
  }

  /** A plan's writes touch only its own objects and the edges of dropped nodes. */
  ghost predicate OnlyPlanned(p: Plan, g0: Provenance, g: Provenance) {
    && (forall k :: k in g ==> k in g0)
    && (forall k :: k in g0 && k !in p.drop && !CutOff(p, k) ==> k in g)
    && (forall k :: k in g && k !in p.rebuild ==> g[k] == g0[k])
  }

  lemma WriteIsPlanned(b: Base, g0: Provenance, g: Provenance, p: Plan, w: Write)
    requires OnlyPlanned(p, g0, g) && Allowed(b, g, p, w)
    ensures OnlyPlanned(p, g0, GraphAfter(g, p, w))
  {
  }

  function GraphAfter(g: Provenance, p: Plan, w: Write): Provenance
    requires w.SetGraph? ==> w.k in p.rebuild
  {
    match w
    case DropEdge(k) => g - {k}
    case DropNode(n) => RemoveNode(g, n)
    case SetGraph(k) => g[k := p.rebuild[k]]
    case _ => g
  }

  function TrackingAfter(t: Provenance, p: Plan, w: Write): Provenance
    requires w.SetTracking? ==> w.k in p.rebuild
  {
    match w
    case SetTracking(k) => t[k := p.rebuild[k]]
    case DropTracking(k) => t - {k}
    case _ => t
  }

  /** An edge that goes with a doomed endpoint is doomed itself. */
  lemma CutOffIsDoomed(b: Base, policy: Policy, p: Plan, k: Key)
    requires WellFormed(b) && PlanFor(b, policy, p) && k in b.graph && CutOff(p, k)
    ensures Doomed(b, k)
  {
    hide Existing;
  }

  lemma RemovalStaysWithin(b: Base, policy: Policy, g: Provenance, g': Provenance)
    requires GraphWithin(b, policy, g) && forall k :: k in g' ==> k in g && g'[k] == g[k]
    requires forall k :: k in g && k !in g' ==> Doomed(b, k)
    ensures GraphWithin(b, policy, g')
  {
    hide Doomed, Remaining;
  }

  lemma GraphWriteStaysWithin(b: Base, policy: Policy, g: Provenance, p: Plan, w: Write)
    requires WellFormed(b) && GraphWithin(b, policy, g) && PlanFor(b, policy, p) && Allowed(b, g, p, w)
    ensures GraphWithin(b, policy, GraphAfter(g, p, w))
  {
    hide Doomed, Remaining, WellFormed;
    match w
    case DropEdge(k) => RemovalStaysWithin(b, policy, g, GraphAfter(g, p, w));
    case DropNode(n) =>
      forall k | k in g && Touches(k, n) ensures Doomed(b, k) { CutOffIsDoomed(b, policy, p, k); }
      RemovalStaysWithin(b, policy, g, RemoveNode(g, n));
    case SetGraph(k) =>
    case _ =>
  }

  lemma TrackingWriteStaysWithin(b: Base, policy: Policy, g: Provenance, t: Provenance, p: Plan, w: Write)
    requires WellFormed(b) && GraphWithin(b, policy, g) && TrackingWithin(b, t) && PlanFor(b, policy, p)
    requires Allowed(b, g, p, w)
    ensures TrackingWithin(b, TrackingAfter(t, p, w))
  {
    hide Doomed, Remaining, WellFormed;
    match w
    case SetTracking(k) =>
      hide GraphWithin;
    case DropTracking(k) =>
      assert Doomed(b, k) by { if k in g && CutOff(p, k) { CutOffIsDoomed(b, policy, p, k); } }
      hide GraphWithin, CutOff, PlanFor;
    case _ =>
  }

  // ---- Convergence ----

  /** A purged chunk in a tracking row shows in the graph as well; it may not where source lists are capped. */
  ghost predicate Visible(b: Base) {
    forall k ::
      (k in b.cands && k in b.graph && !Doomed(b, k) && Full(b, k) * b.purged != {} && b.graph[k] * b.purged == {}) ==>
      Remaining(b, k) == b.graph[k]
  }

  /** A complete purge of any state within leaves exactly what an uninterrupted purge would have left. */
  lemma PurgeConverges(b: Base, policy: Policy, g: Provenance, t: Provenance)
    requires WellFormed(b) && GraphWithin(b, policy, g) && TrackingWithin(b, t) && (policy == Rollback || Visible(b))
    ensures PurgeResult(g, t, b, policy) == Target(b, policy)
  {
    var p, r, target := Classify(g, t, b.purged, b.cands, policy), PurgeResult(g, t, b, policy), Target(b, policy);
    PlansAgree(b, policy, g, t);
    ClassifiedPlan(b, policy, g, t);
    hide Classify;
    forall k | k in b.graph
      ensures k in r <==> k in target
      ensures k in r ==> r[k] == target[k]
    {
      if CutOff(p, k) { CutOffIsDoomed(b, policy, p, k); }
      if Doomed(b, k) { DoomedIsCandidate(b, k); }
      if k in g { SurvivorConverges(b, policy, g, t, k); }
    }
    assert r.Keys == target.Keys;
  }

  lemma DoomedIsCandidate(b: Base, k: Key)
    requires WellFormed(b) && k in b.graph && Doomed(b, k)
    ensures k in b.cands
  {
    var c :| c in b.graph[k];
    assert c in Full(b, k) * b.purged;
  }

  lemma SurvivorConverges(b: Base, policy: Policy, g: Provenance, t: Provenance, k: Key)
    requires WellFormed(b) && GraphWithin(b, policy, g) && TrackingWithin(b, t) && (policy == Rollback || Visible(b))
    requires k in g
    ensures
      var p := Classify(g, t, b.purged, b.cands, policy);
      !Doomed(b, k) ==> (if k in p.rebuild then p.rebuild[k] else g[k]) == Target(b, policy)[k]
  {
    if !Doomed(b, k) {
      PlansAgree(b, policy, g, t);
      ReadsAreStable(b, policy, g, t, k);
      UnaffectedKeepsAll(b, k);
      RemainingAvoidsPurged(b, k);
      assert b.graph[k] <= Full(b, k) && (g[k] == b.graph[k] || g[k] == Remaining(b, k));
      hide Classify, Existing, WellFormed, Full, Remaining, GraphWithin, TrackingWithin, Doomed;
    }
  }

  lemma RemainingAvoidsPurged(b: Base, k: Key)
    ensures Remaining(b, k) * b.purged == {}
  {
  }

  /** What no purged chunk supports keeps everything. */
  lemma UnaffectedKeepsAll(b: Base, k: Key)
    ensures Full(b, k) * b.purged == {} ==> Remaining(b, k) == Full(b, k)
    ensures Full(b, k) * b.purged == {} && k in b.graph && b.graph[k] <= Full(b, k) ==> b.graph[k] * b.purged == {}
  {
    hide Existing;
    if Full(b, k) * b.purged == {} {
      forall c | c in Full(b, k) ensures c !in b.purged {
        assert c !in Full(b, k) * b.purged;
      }
    }
  }

  lemma PlanRepairs(b: Base, policy: Policy, g: Provenance, t: Provenance)
    requires WellFormed(b) && GraphWithin(b, policy, g) && TrackingWithin(b, t) && (policy == Rollback || Visible(b))
    ensures Repairs(b, policy, Classify(g, t, b.purged, b.cands, policy), g)
  {
    PlansAgree(b, policy, g, t);
    var p := Classify(g, t, b.purged, b.cands, policy);
    forall k | k in g && k !in p.drop
      ensures k in b.graph && !Doomed(b, k) && (if k in p.rebuild then p.rebuild[k] else g[k]) == Target(b, policy)[k]
    {
      if Doomed(b, k) { DoomedIsCandidate(b, k); }
      SurvivorConverges(b, policy, g, t, k);
    }
  }

  /** A best-effort purge converges from everything an interruption can leave behind exactly when no purged chunk
      hides in a tracking row alone. */
  lemma BestEffortConvergesIff(b: Base)
    requires WellFormed(b)
    ensures Visible(b) <==>
      forall g, t :: GraphWithin(b, BestEffort, g) && TrackingWithin(b, t) ==>
        PurgeResult(g, t, b, BestEffort) == Target(b, BestEffort)
  {
    if Visible(b) {
      forall g, t | GraphWithin(b, BestEffort, g) && TrackingWithin(b, t) { PurgeConverges(b, BestEffort, g, t); }
    } else {
      var k :| k in b.cands && k in b.graph && !Doomed(b, k) && Full(b, k) * b.purged != {}
        && b.graph[k] * b.purged == {}
               && Remaining(b, k) != b.graph[k];
      HiddenChunkDiverges(b, k);
    }
  }

  /** One attempt repoints the tracking row and crashes; the next finds nothing to do and leaves the graph row. */
  lemma HiddenChunkDiverges(b: Base, k: Key)
    requires WellFormed(b) && k in b.cands && k in b.graph && !Doomed(b, k)
    requires Full(b, k) * b.purged != {} && b.graph[k] * b.purged == {} && Remaining(b, k) != b.graph[k]
    ensures
      var t := b.tracking[k := Remaining(b, k)];
      GraphWithin(b, BestEffort, b.graph) && TrackingWithin(b, t)
        && PurgeResult(b.graph, t, b, BestEffort) != Target(b, BestEffort)
  {
    var t := b.tracking[k := Remaining(b, k)];
    assert TrackingWithin(b, t);
    assert Existing(b.graph, t, k) == Remaining(b, k) by {
      var c :| c in Full(b, k) && c !in b.purged; assert c in Remaining(b, k);
    }
    PlansAgree(b, BestEffort, b.graph, t);
    ClassifiedPlan(b, BestEffort, b.graph, t);
    var p := Classify(b.graph, t, b.purged, b.cands, BestEffort);
    assert k !in p.rebuild;
    if CutOff(p, k) { CutOffIsDoomed(b, BestEffort, p, k); }
    assert PurgeResult(b.graph, t, b, BestEffort)[k] == b.graph[k];
  }

  // ---- What a purge means for the graph ----

  /** No purged chunk is cited; what other chunks support stays, with exactly its remaining sources; the graph is
      still closed and every edge still lies within its endpoints. */
  lemma TargetConserves(b: Base, policy: Policy)
    requires WellFormed(b) && (forall k :: k in b.graph ==> b.graph[k] == Full(b, k))
    ensures forall k, c :: Cites(Target(b, policy), k, c) <==> Cites(b.graph, k, c) && c !in b.purged
    ensures forall k :: k in Target(b, policy) <==> k in b.graph && b.graph[k] - b.purged != {}
    ensures EndpointsPresent(Target(b, policy))
    ensures forall k :: k in Target(b, policy) && k.Rel? ==>
      Target(b, policy)[k] <= Target(b, policy)[Ent(k.src)] && Target(b, policy)[k] <= Target(b, policy)[Ent(k.tgt)]
  {
    var target := Target(b, policy);
    forall k | k in b.graph && !Doomed(b, k) ensures target[k] == b.graph[k] - b.purged {
      UnaffectedKeepsAll(b, k);
    }
    forall k | k in b.graph ensures Doomed(b, k) <==> b.graph[k] - b.purged == {} {
      assert forall c :: c in b.graph[k] && c !in b.purged ==> c in b.graph[k] - b.purged;
    }
    hide Full;
  }

  /** Even where source lists are capped, no purged chunk is cited afterwards. */
  lemma TargetIsClean(b: Base, policy: Policy, k: Key, c: Chunk)
    requires WellFormed(b) && c in b.purged
    ensures !Cites(Target(b, policy), k, c)
  {
    UnaffectedKeepsAll(b, k);
    RemainingAvoidsPurged(b, k);
    assert c in Full(b, k) ==> c in Full(b, k) * b.purged;
  }

  // ---- Runs: attempts, persistence in any order, crashes ----

  datatype Copy = Copy(graph: Provenance, tracking: Provenance)

  /** An attempt under way: its plan, and the graph it started from. */
  datatype Attempt = NoAttempt | Attempt(plan: Plan, start: Provenance)

  datatype State = State(mem: Copy, disk: Copy, attempt: Attempt)

  datatype Event =
    | Start(policy: Policy)
    | Do(w: Write)
    | PersistGraph
    | PersistTracking(keys: set<Key>)
    | GiveUp
    | Crash

  ghost predicate Step(b: Base, s: State, e: Event, s': State) {
    match e
    case Start(policy) =>
      s.attempt.NoAttempt?
      && s' == s.(attempt := Attempt(Classify(s.mem.graph, s.mem.tracking, b.purged, b.cands, policy), s.mem.graph))
    case Do(w) =>
      s.attempt.Attempt? && Allowed(b, s.mem.graph, s.attempt.plan, w)
      && s' == s.(mem := Copy(GraphAfter(s.mem.graph, s.attempt.plan, w),
           TrackingAfter(s.mem.tracking, s.attempt.plan, w)))
    case PersistGraph => s' == s.(disk := s.disk.(graph := s.mem.graph))
    case PersistTracking(keys) => s' == s.(disk := s.disk.(tracking := Overlay(s.disk.tracking, s.mem.tracking, keys)))
    case GiveUp => s' == s.(attempt := NoAttempt)
    case Crash => s' == State(s.disk, s.disk, NoAttempt)
  }

  ghost predicate IsRun(b: Base, run: seq<State>, events: seq<Event>)
    requires |run| == |events| + 1
  {
    forall i :: 0 <= i < |events| ==> Step(b, run[i], events[i], run[i + 1])
  }

  ghost predicate Repairs(b: Base, policy: Policy, p: Plan, g: Provenance) {
    forall k :: k in g && k !in p.drop ==>
      k in b.graph && !Doomed(b, k) && (if k in p.rebuild then p.rebuild[k] else g[k]) == Target(b, policy)[k]
  }

  /** The plan drops or repairs whatever was not yet as it should be when the attempt started. */
  ghost predicate AttemptOk(b: Base, policy: Policy, s: State) {
    s.attempt.Attempt? ==>
      var p, g0 := s.attempt.plan, s.attempt.start;
      PlanFor(b, policy, p) && Repairs(b, policy, p, g0) && OnlyPlanned(p, g0, s.mem.graph)
  }

  ghost predicate Inv(b: Base, policy: Policy, s: State) {
    && GraphWithin(b, policy, s.mem.graph) && TrackingWithin(b, s.mem.tracking)
    && GraphWithin(b, policy, s.disk.graph) && TrackingWithin(b, s.disk.tracking)
    && AttemptOk(b, policy, s)
  }

  lemma OverlayStaysWithin(b: Base, to: Provenance, from: Provenance, keys: set<Key>)
    requires TrackingWithin(b, to) && TrackingWithin(b, from)
    ensures TrackingWithin(b, Overlay(to, from, keys))
  {
    assert forall k :: Sources(Overlay(to, from, keys), k) == if k in keys then Sources(from, k) else Sources(to, k);
    hide Doomed, Remaining, Sources;
  }

  lemma StepKeepsInv(b: Base, policy: Policy, s: State, e: Event, s': State)
    requires WellFormed(b) && (policy == Rollback || Visible(b)) && (e.Start? ==> e.policy == policy)
    requires Inv(b, policy, s) && Step(b, s, e, s')
    ensures Inv(b, policy, s')
  {
    match e
    case Start(_) =>
      ClassifiedPlan(b, policy, s.mem.graph, s.mem.tracking);
      PlanRepairs(b, policy, s.mem.graph, s.mem.tracking);
      hide GraphWithin, TrackingWithin, Classify, Repairs, PlanFor;
    case Do(w) =>
      WriteIsPlanned(b, s.attempt.start, s.mem.graph, s.attempt.plan, w);
      GraphWriteStaysWithin(b, policy, s.mem.graph, s.attempt.plan, w);
      TrackingWriteStaysWithin(b, policy, s.mem.graph, s.mem.tracking, s.attempt.plan, w);
      hide GraphWithin, TrackingWithin, OnlyPlanned, PlanFor, Repairs;
    case PersistTracking(keys) =>
      OverlayStaysWithin(b, s.disk.tracking, s.mem.tracking, keys);
      hide GraphWithin, TrackingWithin;
    case _ =>
      hide GraphWithin, TrackingWithin;
  }

  lemma {:induction false} RunKeepsInv(b: Base, policy: Policy, run: seq<State>, events: seq<Event>, i: nat)
    requires WellFormed(b) && (policy == Rollback || Visible(b)) && forall e :: e in events && e.Start? ==>
      e.policy == policy
    requires |run| == |events| + 1 && IsRun(b, run, events) && i < |run| && Inv(b, policy, run[0])
    ensures Inv(b, policy, run[i])
  {
    hide Inv, Step;
    if i > 0 {
      RunKeepsInv(b, policy, run, events, i - 1);
      StepKeepsInv(b, policy, run[i - 1], events[i - 1], run[i]);
    }
  }

  /** The attempt has carried out its whole plan. */
  ghost predicate Complete(s: State) {
    && s.attempt.Attempt?
    && (forall k :: k in s.attempt.plan.drop || CutOff(s.attempt.plan, k) ==> k !in s.mem.graph)
    && (forall k :: k in s.attempt.plan.rebuild && k in s.mem.graph ==> s.mem.graph[k] == s.attempt.plan.rebuild[k])
  }

  /** Purge convergence. However many attempts failed before, and whatever part of their writes survived crashes, an
      attempt that carries out its plan leaves exactly what one uninterrupted purge leaves. */
  lemma RerunsConverge(b: Base, policy: Policy, run: seq<State>, events: seq<Event>, i: nat)
    requires WellFormed(b) && (policy == Rollback || Visible(b)) && forall e :: e in events && e.Start? ==>
      e.policy == policy
    requires |run| == |events| + 1 && IsRun(b, run, events) && i < |run|
    requires run[0] == State(Copy(b.graph, b.tracking), Copy(b.graph, b.tracking), NoAttempt)
    requires Complete(run[i])
    ensures run[i].mem.graph == Target(b, policy)
  {
    hide IsRun, WellFormed, Visible;
    BaseIsWithin(b, policy);
    RunKeepsInv(b, policy, run, events, i);
    CompleteIsTarget(b, policy, run[i]);
  }

  lemma PresentIsTarget(b: Base, policy: Policy, s: State, k: Key)
    requires Inv(b, policy, s) && Complete(s) && k in s.mem.graph
    ensures k in Target(b, policy) && s.mem.graph[k] == Target(b, policy)[k]
  {
    hide Doomed, Remaining, TrackingWithin, GraphWithin, CutOff, PlanFor;
    assert k in s.attempt.start && k !in s.attempt.plan.drop;
  }

  lemma CompleteIsTarget(b: Base, policy: Policy, s: State)
    requires Inv(b, policy, s) && Complete(s)
    ensures s.mem.graph == Target(b, policy)
  {
    var g, target := s.mem.graph, Target(b, policy);
    forall k | k in g ensures k in target && g[k] == target[k] { PresentIsTarget(b, policy, s, k); }
    hide Doomed, Remaining, TrackingWithin, AttemptOk, Complete;
    assert g.Keys == target.Keys;
  }

  // ---- Chunk rows ----

  ghost predicate CitesOnly(g: Provenance, chunks: set<Chunk>) {
    forall k, c :: Cites(g, k, c) ==> c in chunks
  }

  /** Neither copy of the graph cites a purged chunk, and no attempt is about to write one. */
  ghost predicate Clean(b: Base, s: State) {
    && CitesOnly(s.mem.graph, AllSources(b) - b.purged) && CitesOnly(s.disk.graph, AllSources(b) - b.purged)
    && (s.attempt.Attempt? ==> CitesOnly(s.attempt.plan.rebuild, AllSources(b) - b.purged))
  }

  function AllSources(b: Base): set<Chunk> {
    set k, c | k in b.graph && c in Full(b, k) :: c
  }

  lemma WithinCitesSources(b: Base, policy: Policy, g: Provenance)
    requires WellFormed(b) && GraphWithin(b, policy, g)
    ensures CitesOnly(g, AllSources(b))
  {
    hide Full, Doomed;
  }

  lemma TargetCitesRemaining(b: Base, policy: Policy)
    requires WellFormed(b)
    ensures CitesOnly(Target(b, policy), AllSources(b) - b.purged)
  {
    forall k, c | Cites(Target(b, policy), k, c) ensures c in AllSources(b) - b.purged {
      if c in b.purged { TargetIsClean(b, policy, k, c); }
      assert c in Full(b, k);
    }
  }

  lemma PlanCitesRemaining(b: Base, policy: Policy, p: Plan)
    requires PlanFor(b, policy, p)
    ensures CitesOnly(p.rebuild, AllSources(b) - b.purged)
  {
    hide Full, Doomed;
  }

  lemma WriteCitesOnly(g: Provenance, p: Plan, w: Write, chunks: set<Chunk>)
    requires CitesOnly(g, chunks) && CitesOnly(p.rebuild, chunks) && (w.SetGraph? ==> w.k in p.rebuild)
    ensures CitesOnly(GraphAfter(g, p, w), chunks)
  {
    forall k, c | Cites(GraphAfter(g, p, w), k, c) ensures c in chunks {
      assert Cites(g, k, c) || Cites(p.rebuild, k, c);
    }
  }

  lemma StepKeepsClean(b: Base, policy: Policy, s: State, e: Event, s': State)
    requires WellFormed(b) && (policy == Rollback || Visible(b)) && (e.Start? ==> e.policy == policy)
    requires Inv(b, policy, s) && Clean(b, s) && Step(b, s, e, s')
    ensures Clean(b, s')
  {
    hide AllSources, Full, GraphWithin, TrackingWithin, WellFormed, Visible, Repairs;
    match e
    case Start(_) =>
      ClassifiedPlan(b, policy, s.mem.graph, s.mem.tracking);
      PlanCitesRemaining(b, policy, s'.attempt.plan);
      hide Classify, PlanFor;
    case Do(w) =>
      assert (w.SetGraph? ==> w.k in s.attempt.plan.rebuild) && (w.SetTracking? ==> w.k in s.attempt.plan.rebuild);
      WriteCitesOnly(s.mem.graph, s.attempt.plan, w, AllSources(b) - b.purged);
      hide PlanFor, CitesOnly;
    case _ =>
  }

  /** When the chunk rows may go. At every state of every run each cited chunk is one the store knew before; and from
      the moment a complete purge is on disk, no copy of the graph ever cites a purged chunk again. */
  lemma {:induction false} NothingDangles(b: Base, policy: Policy, run: seq<State>, events: seq<Event>, i: nat, j: nat)
    requires WellFormed(b) && (policy == Rollback || Visible(b)) && forall e :: e in events && e.Start? ==>
      e.policy == policy
    requires |run| == |events| + 1 && IsRun(b, run, events) && i <= j < |run|
    requires run[0] == State(Copy(b.graph, b.tracking), Copy(b.graph, b.tracking), NoAttempt)
    ensures CitesOnly(run[j].mem.graph, AllSources(b)) && CitesOnly(run[j].disk.graph, AllSources(b))
    ensures Complete(run[i]) && run[i].disk.graph == run[i].mem.graph ==> Clean(b, run[j])
    decreases j
  {
    hide WellFormed, Visible, AllSources, Step, CitesOnly;
    BaseIsWithin(b, policy);
    RunKeepsInv(b, policy, run, events, j);
    WithinCitesSources(b, policy, run[j].mem.graph);
    WithinCitesSources(b, policy, run[j].disk.graph);
    hide GraphWithin, TrackingWithin;
    if Complete(run[i]) && run[i].disk.graph == run[i].mem.graph {
      if j == i {
        CompleteIsTarget(b, policy, run[i]);
        TargetCitesRemaining(b, policy);
        PlanCitesRemaining(b, policy, run[i].attempt.plan);
      } else {
        NothingDangles(b, policy, run, events, i, j - 1);
        RunKeepsInv(b, policy, run, events, j - 1);
        StepKeepsClean(b, policy, run[j - 1], events[j - 1], run[j]);
      }
    }
  }
}
