/** The journaled custom-chunk operation and its rollback as a state machine.

One step is one write of one store, one persistence event, or one crash, so that "at every reachable
state" covers every point at which the program can fail. */
module Protocol {
  import opened Kg
  import opened Options

  datatype Status = Processing | Failed | Processed | Other

  datatype Mode = Create | Patch

  /** The `custom_chunk_patch` record in a document's status row. The operation id is a hash of the ordered
      list of submitted chunk ids; the hash is taken as injective, so that list stands for the id. */
  datatype Journal = Journal(op: seq<Chunk>, mode: Mode, chunks: seq<Chunk>, cands: set<Key>)

  datatype Row = Row(status: Status, chunks: seq<Chunk>, journal: Option<Journal>)

  /** One copy of the stores: `tracking` is entity_chunks and relation_chunks, `anchors` is
      full_entities and full_relations, `bodies` is full_docs, `rows` is doc_status. */
  datatype Stores = Stores(
    graph: Provenance,
    tracking: Provenance,
    text: set<Chunk>,
    anchors: set<(Doc, Key)>,
    bodies: set<Doc>,
    rows: map<Doc, Row>)

  /** What has been committed so far: a history variable that only commits change. */
  datatype Committed = Committed(
    graph: Provenance,
    text: set<Chunk>,
    anchors: set<(Doc, Key)>,
    bodies: set<Doc>,
    rows: map<Doc, Row>)

  datatype InsertPhase = Staging | Staged | Applying | Merging | Merged | Ready

  datatype RollPhase = Cutting | Rebuilding | Rebuilt | Emptied | Unanchored | RowDropped

  /** The operation in progress; a crash forgets it. The pipeline's busy slot admits one at a time. In doubt is a commit
      whose write took effect and yet reported an error: what had been committed before, and the row it replaced. */
  datatype Op =
    | Idle
    | Insert(doc: Doc, at: InsertPhase)
    | Roll(doc: Doc, plan: Plan, stage: RollPhase)
    | Doubt(doc: Doc, prior: Committed, row: Row)

  /** `mem` is what the running process sees, `disk` what survives a crash. */
  datatype State = State(mem: Stores, disk: Stores, done: Committed, op: Op)

  /** A store persists (part of) its content, at a flush barrier or at any other moment; while nothing runs it
      may drop unpersisted content (an aborting operation discards its buffers); a crash drops all of it. */
  datatype Persistence =
    | SyncGraph
    | SyncTracking(keys: set<Key>)
    | SyncText(chunks: set<Chunk>)
    | SyncAnchors(entries: set<(Doc, Key)>)
    | SyncBodies
    | SyncRows
    | DiscardGraph
    | DiscardTracking(keys: set<Key>)
    | DiscardText(chunks: set<Chunk>)
    | DiscardAnchors(entries: set<(Doc, Key)>)
    | DiscardBodies
    | DiscardRows
    | Crash

  /** The writes of ainsert_custom_chunks, and the points where it relies on what has become durable. */
  datatype InsertStep =
    | StartCreate(doc: Doc, ids: seq<Chunk>)
    | StartPatch(doc: Doc, ids: seq<Chunk>)
    | Resume(doc: Doc, ids: seq<Chunk>)
    | StageText
    | StageBody
    | FinishStaging
    | JournalCandidates
    | PrewriteAnchors(entities: bool)
    | BeginMerge
    | MergeTracking(key: Key, sources: set<Chunk>)
    | MergeGraph(key: Key, sources: set<Chunk>)
    | EndMerge
    | UnionAnchors(entities: bool)
    | FinishUnion
    | Commit
    | CommitInDoubt
    | Revoke
    | RecordFailure
    | RecordFailureWithCandidates
    | Abort

  /** The writes of _rollback_one_custom_chunk_patch, including those of the purge it runs. */
  datatype RollStep =
    | StartRollback(doc: Doc)
    | Repoint(key: Key)
    | CutEdge(key: Key)
    | CutNode(name: string)
    | Forget(key: Key)
    | EndCut
    | RebuildTracking(key: Key)
    | RebuildGraph(key: Key)
    | EndRebuild
    | DropText
    | FinishDrop
    | DropAnchors(entities: bool)
    | FinishAnchors
    | DropBody
    | DropRow
    | FinishCreate
    | Prune(entities: bool)
    | Restore

  datatype Event = Persist(p: Persistence) | Ins(i: InsertStep) | Rol(r: RollStep)

  // ---- Reading the state ----

  function Elems(s: seq<Chunk>): set<Chunk> {
    set c | c in s
  }

  predicate HasJournal(rows: map<Doc, Row>, d: Doc) {
    d in rows && rows[d].journal.Some?
  }

  function StagedBy(rows: map<Doc, Row>, d: Doc): set<Chunk> {
    if HasJournal(rows, d) then Elems(rows[d].journal.value.chunks) else {}
  }

  /** Committed-content filter: keep the chunks whose text no committed chunk row already holds. */
  function Fresh(ids: seq<Chunk>, committed: seq<Chunk>, text: set<Chunk>): (r: seq<Chunk>)
    ensures forall c :: c in r ==> c in ids
    ensures forall c :: c in r ==> forall b :: b in committed && b in text ==> b.text != c.text
  {
    if ids == [] then []
    else
      var rest := Fresh(ids[1..], committed, text);
      if exists b | b in committed :: b in text && b.text == ids[0].text then rest else [ids[0]] + rest
  }

  predicate Distinct(s: seq<Chunk>) {
    forall i, j :: 0 <= i < j < |s| ==> s[i] != s[j]
  }

  predicate Submittable(d: Doc, ids: seq<Chunk>) {
    ids != [] && Distinct(ids) && forall c :: c in ids ==> c.Custom? && c.doc == d
  }

  /** The part of an anchor row kept in full_entities (entities) or full_relations. */
  function Rows(d: Doc, keys: set<Key>, entities: bool): set<(Doc, Key)> {
    set k | k in keys && k.Ent? == entities :: (d, k)
  }

  /** A creation anchors its candidates ahead of the merge only under a document id that is not empty; a patch anchors
      them at its commit. */
  predicate IsAnchored(d: Doc, mode: Mode) {
    mode == Patch || d != ""
  }

  function WithoutRow(a: set<(Doc, Key)>, d: Doc, entities: bool): set<(Doc, Key)> {
    set x | x in a && !(x.0 == d && x.1.Ent? == entities)
  }

  /** The staged chunks a merge adds to one object. */
  function NewSources(ex: Chunk -> Extraction, staged: set<Chunk>, k: Key): set<Chunk> {
    set c | c in staged && k in Contributed(ex(c))
  }

  /** Sources an endpoint entity takes over from the operation's relations. */
  function IncidentSources(ex: Chunk -> Extraction, s: Stores, staged: set<Chunk>, k: Key): set<Chunk> {
    if k.Rel? then {}
    else set e, c | e in ContributedBy(ex, staged) && Touches(e, k.name) && c in Existing(s.graph, s.tracking, e) :: c
  }

  /** The values a merge writes for `k`: what it read for `k`, plus staged chunks that contribute to it, plus,
      for an endpoint, the sources of the operation's relations. */
  predicate MergeValue(ex: Chunk -> Extraction, s: Stores, staged: set<Chunk>, k: Key, v: set<Chunk>) {
    && k in ContributedBy(ex, staged)
    && v != {}
    && v <= Existing(s.graph, s.tracking, k) + NewSources(ex, staged, k) + IncidentSources(ex, s, staged, k)
  }

  function Mix<T>(to: set<T>, from: set<T>, part: set<T>): set<T> {
    (to - part) + (from * part)
  }

  function Without(s: seq<Chunk>, gone: set<Chunk>): (r: seq<Chunk>)
    ensures forall c :: c in r <==> c in s && c !in gone
    ensures (forall c :: c in s ==> c !in gone) ==> r == s
  {
    if s == [] then []
    else
      assert s == [s[0]] + s[1..];
      if s[0] in gone then Without(s[1..], gone) else [s[0]] + Without(s[1..], gone)
  }

  /** Order-preserving union of two id lists. */
  function AppendNew(base: seq<Chunk>, more: seq<Chunk>): seq<Chunk> {
    base + Without(more, Elems(base))
  }

  // ---- Steps ----

  predicate Inserting(s: State, at: InsertPhase) {
    s.op.Insert? && s.op.at == at && HasJournal(s.mem.rows, s.op.doc)
  }

  predicate Rolling(s: State, stage: RollPhase) {
    s.op.Roll? && s.op.stage == stage && HasJournal(s.mem.rows, s.op.doc)
  }

  function Jn(s: State): Journal
    requires s.op != Idle && HasJournal(s.mem.rows, s.op.doc)
  {
    s.mem.rows[s.op.doc].journal.value
  }

  function Batch(s: State): set<Chunk>
    requires s.op != Idle && HasJournal(s.mem.rows, s.op.doc)
  {
    Elems(Jn(s).chunks)
  }

  predicate Flushed(s: State) {
    && s.disk.graph == s.mem.graph && s.disk.tracking == s.mem.tracking && s.disk.text == s.mem.text
    && s.disk.anchors == s.mem.anchors && s.disk.bodies == s.mem.bodies && s.disk.rows == s.mem.rows
  }

  /** The chunk has reached the object: its tracking row names it too, unless there is no such row. */
  predicate Reached(s: Stores, k: Key, c: Chunk) {
    Cites(s.graph, k, c) && (Sources(s.tracking, k) == {} || c in s.tracking[k])
  }

  /** Every staged chunk has reached every object it contributes to. */
  ghost predicate MergeComplete(ex: Chunk -> Extraction, s: Stores, staged: set<Chunk>) {
    forall c, k :: c in staged && k in Contributed(ex(c)) ==> Reached(s, k, c)
  }

  /** The document still contributes to the object through one of its committed chunks. */
  predicate Owned(s: State, k: Key)
    requires s.op != Idle && HasJournal(s.mem.rows, s.op.doc)
  {
    exists c | c in s.mem.rows[s.op.doc].chunks :: c !in Batch(s) && c in Sources(s.mem.tracking, k)
  }

  /** The dropped objects are gone and the tracking rows of the others name their remaining sources. */
  predicate CutDone(st: Stores, p: Plan) {
    && (forall k :: k in p.drop ==> k !in st.graph)
    && (forall k :: k in p.rebuild && k in st.graph ==> k in st.tracking && st.tracking[k] == p.rebuild[k])
  }

  predicate RebuildDone(st: Stores, p: Plan) {
    forall k :: k in p.rebuild && k in st.graph ==> st.graph[k] == p.rebuild[k]
  }

  predicate EnabledPersist(s: State, e: Persistence) {
    match e
    case SyncGraph => true
    case SyncTracking(_) => true
    case SyncText(_) => true
    case SyncAnchors(_) => true
    case SyncBodies => true
    case SyncRows => true
    case DiscardGraph => s.op.Idle?
    case DiscardTracking(_) => s.op.Idle?
    case DiscardText(_) => s.op.Idle?
    case DiscardAnchors(_) => s.op.Idle?
    case DiscardBodies => s.op.Idle?
    case DiscardRows => s.op.Idle?
    case Crash => true
  }

  ghost predicate EnabledInsert(ex: Chunk -> Extraction, s: State, e: InsertStep) {
    match e
    case StartCreate(d, ids) => s.op.Idle? && d !in s.mem.rows && d !in s.mem.bodies && Submittable(d, ids)
    case StartPatch(d, ids) =>
      && s.op.Idle? && d in s.mem.rows && s.mem.rows[d].status == Processed && s.mem.rows[d].journal.None?
      && Submittable(d, ids) && Fresh(ids, s.mem.rows[d].chunks, s.mem.text) != []
    case Resume(d, ids) => s.op.Idle? && HasJournal(s.mem.rows, d) && s.mem.rows[d].journal.value.op == ids
    case StageText => Inserting(s, Staging)
    case StageBody => Inserting(s, Staging) && Jn(s).mode == Create
    case FinishStaging =>
      && Inserting(s, Staging) && Batch(s) <= s.mem.text && s.disk.text == s.mem.text
      && (Jn(s).mode == Create ==> s.op.doc in s.mem.bodies && s.disk.bodies == s.mem.bodies)
    case JournalCandidates => Inserting(s, Staged)
    case PrewriteAnchors(_) => Inserting(s, Applying) && Jn(s).mode == Create && s.op.doc != ""
    case BeginMerge =>
      && Inserting(s, Applying)
      && (Jn(s).mode == Create && s.op.doc != "" ==>
            s.disk.anchors == s.mem.anchors && forall k :: k in Jn(s).cands ==> (s.op.doc, k) in s.mem.anchors)
    case MergeTracking(k, v) =>
      && Inserting(s, Merging) && MergeValue(ex, s.mem, Batch(s), k, v)
      && (k in s.mem.graph ==> Existing(s.mem.graph, s.mem.tracking, k) <= v || v == s.mem.graph[k])
    case MergeGraph(k, v) =>
      && Inserting(s, Merging) && MergeValue(ex, s.mem, Batch(s), k, v)
      && (k in s.mem.graph ==> Existing(s.mem.graph, s.mem.tracking, k) <= v)
      && (k.Rel? ==> Ent(k.src) in s.mem.graph && Ent(k.tgt) in s.mem.graph)
    case EndMerge => Inserting(s, Merging) && MergeComplete(ex, s.mem, Batch(s)) && Flushed(s)
    case UnionAnchors(_) => Inserting(s, Merged) && Jn(s).mode == Patch
    case FinishUnion =>
      && Inserting(s, Merged)
      && (Jn(s).mode == Patch ==>
            s.disk.anchors == s.mem.anchors && forall k :: k in Jn(s).cands ==> (s.op.doc, k) in s.mem.anchors)
    case Commit => Inserting(s, Ready)
    case CommitInDoubt => Inserting(s, Ready)
    case Revoke => s.op.Doubt?
    case RecordFailure => s.op.Insert? && HasJournal(s.mem.rows, s.op.doc)
    case RecordFailureWithCandidates => Inserting(s, Staged)
    case Abort => s.op != Idle
  }

  ghost predicate EnabledRoll(s: State, e: RollStep) {
    match e
    case StartRollback(d) => s.op.Idle? && HasJournal(s.mem.rows, d)
    case Repoint(k) => Rolling(s, Cutting) && k in s.op.plan.rebuild
    case CutEdge(k) => Rolling(s, Cutting) && k in s.op.plan.drop && k.Rel?
    case CutNode(n) => Rolling(s, Cutting) && Ent(n) in s.op.plan.drop
    case Forget(k) =>
      && Rolling(s, Cutting)
      && (k in s.op.plan.drop
          || (k in s.mem.graph && exists n | n in s.op.plan.drop :: n.Ent? && Touches(k, n.name)))
    case EndCut => Rolling(s, Cutting) && Flushed(s) && CutDone(s.mem, s.op.plan)
    case RebuildTracking(k) => Rolling(s, Rebuilding) && k in s.op.plan.rebuild && k in s.mem.graph
    case RebuildGraph(k) => Rolling(s, Rebuilding) && k in s.op.plan.rebuild && k in s.mem.graph
    case EndRebuild => Rolling(s, Rebuilding) && Flushed(s) && RebuildDone(s.mem, s.op.plan)
    case DropText => Rolling(s, Rebuilt)
    case FinishDrop => Rolling(s, Rebuilt) && Batch(s) !! s.mem.text && s.disk.text == s.mem.text
    case DropAnchors(_) => Rolling(s, Emptied) && Jn(s).mode == Create
    case FinishAnchors =>
      && Rolling(s, Emptied) && Jn(s).mode == Create && s.disk.anchors == s.mem.anchors
      && forall k :: (s.op.doc, k) !in s.mem.anchors
    case DropBody => Rolling(s, Unanchored)
    case DropRow => Rolling(s, Unanchored) && s.op.doc !in s.mem.bodies
    case FinishCreate =>
      s.op.Roll? && s.op.stage == RowDropped && s.op.doc !in s.disk.rows && s.op.doc !in s.disk.bodies
    case Prune(_) => Rolling(s, Emptied) && Jn(s).mode == Patch
    case Restore =>
      && Rolling(s, Emptied) && Jn(s).mode == Patch && s.disk.anchors == s.mem.anchors
      && forall k :: k in Jn(s).cands && (s.op.doc, k) in s.mem.anchors ==> Owned(s, k)
  }

  ghost predicate Enabled(ex: Chunk -> Extraction, s: State, e: Event) {
    match e
    case Persist(p) => EnabledPersist(s, p)
    case Ins(i) => EnabledInsert(ex, s, i)
    case Rol(r) => EnabledRoll(s, r)
  }

  function WithRow(s: State, d: Doc, r: Row): State {
    s.(mem := s.mem.(rows := s.mem.rows[d := r]), disk := s.disk.(rows := s.disk.rows[d := r]))
  }

  /** Rows the Prune step removes: candidate rows of the document it no longer contributes to. */
  function Pruned(s: State, entities: bool): set<(Doc, Key)>
    requires s.op != Idle && HasJournal(s.mem.rows, s.op.doc)
  {
    set x | x in s.mem.anchors && x.0 == s.op.doc && x.1.Ent? == entities && x.1 in Jn(s).cands && !Owned(s, x.1)
  }

  function AddContributions(ex: Chunk -> Extraction, g: Provenance, staged: set<Chunk>): Provenance {
    map k | k in g.Keys + ContributedBy(ex, staged) :: Sources(g, k) + NewSources(ex, staged, k)
  }

  /** The committed view after a document's operation commits. */
  function CommitOf(ex: Chunk -> Extraction, c: Committed, d: Doc, j: Journal): Committed {
    var staged := Elems(j.chunks);
    var base := if d in c.rows then c.rows[d].chunks else [];
    Committed(
      AddContributions(ex, c.graph, staged),
      c.text + staged,
      if IsAnchored(d, j.mode) then c.anchors + (set k | k in j.cands :: (d, k)) else c.anchors,
      if j.mode == Create then c.bodies + {d} else c.bodies,
      c.rows[d := Row(Processed, AppendNew(base, j.chunks), None)])
  }

  function CrashOf(s: State): State {
    s.(mem := s.disk, op := Idle)
  }

  function NextPersist(s: State, e: Persistence): State
    requires EnabledPersist(s, e)
  {
    match e
    case SyncGraph => s.(disk := s.disk.(graph := s.mem.graph))
    case SyncTracking(ks) => s.(disk := s.disk.(tracking := Overlay(s.disk.tracking, s.mem.tracking, ks)))
    case SyncText(cs) => s.(disk := s.disk.(text := Mix(s.disk.text, s.mem.text, cs)))
    case SyncAnchors(es) => s.(disk := s.disk.(anchors := Mix(s.disk.anchors, s.mem.anchors, es)))
    case SyncBodies => s.(disk := s.disk.(bodies := s.mem.bodies))
    case SyncRows => s.(disk := s.disk.(rows := s.mem.rows))
    case DiscardGraph => s.(mem := s.mem.(graph := s.disk.graph))
    case DiscardTracking(ks) => s.(mem := s.mem.(tracking := Overlay(s.mem.tracking, s.disk.tracking, ks)))
    case DiscardText(cs) => s.(mem := s.mem.(text := Mix(s.mem.text, s.disk.text, cs)))
    case DiscardAnchors(es) => s.(mem := s.mem.(anchors := Mix(s.mem.anchors, s.disk.anchors, es)))
    case DiscardBodies => s.(mem := s.mem.(bodies := s.disk.bodies))
    case DiscardRows => s.(mem := s.mem.(rows := s.disk.rows))
    case Crash => CrashOf(s)
  }

  ghost function NextInsert(ex: Chunk -> Extraction, s: State, e: InsertStep): State
    requires EnabledInsert(ex, s, e)
  {
    match e
    case StartCreate(d, ids) =>
      WithRow(s, d, Row(Processing, [], Some(Journal(ids, Create, ids, {})))).(op := Insert(d, Staging))
    case StartPatch(d, ids) =>
      var row := s.mem.rows[d];
      var j := Journal(ids, Patch, Fresh(ids, row.chunks, s.mem.text), {});
      WithRow(s, d, Row(Processing, row.chunks, Some(j))).(op := Insert(d, Staging))
    case Resume(d, ids) =>
      var row := s.mem.rows[d];
      var mode := row.journal.value.mode;
      var chunks := if mode == Create then ids else Fresh(ids, row.chunks, s.mem.text);
      var j := Journal(ids, mode, chunks, row.journal.value.cands);
      WithRow(s, d, Row(Processing, row.chunks, Some(j))).(op := Insert(d, Staging))
    case StageText => s.(mem := s.mem.(text := s.mem.text + Batch(s)))
    case StageBody => s.(mem := s.mem.(bodies := s.mem.bodies + {s.op.doc}))
    case FinishStaging => s.(op := s.op.(at := Staged))
    case JournalCandidates =>
      var row := s.mem.rows[s.op.doc];
      var j := row.journal.value.(cands := CandidatesOf(ex, Batch(s)));
      WithRow(s, s.op.doc, row.(journal := Some(j))).(op := s.op.(at := Applying))
    case PrewriteAnchors(ents) =>
      s.(mem := s.mem.(anchors := WithoutRow(s.mem.anchors, s.op.doc, ents) + Rows(s.op.doc, Jn(s).cands, ents)))
    case BeginMerge => s.(op := s.op.(at := Merging))
    case MergeTracking(k, v) => s.(mem := s.mem.(tracking := s.mem.tracking[k := v]))
    case MergeGraph(k, v) => s.(mem := s.mem.(graph := s.mem.graph[k := v]))
    case EndMerge => s.(op := s.op.(at := Merged))
    case UnionAnchors(ents) => s.(mem := s.mem.(anchors := s.mem.anchors + Rows(s.op.doc, Jn(s).cands, ents)))
    case FinishUnion => s.(op := s.op.(at := Ready))
    case Commit =>
      var d := s.op.doc;
      WithRow(s, d, Row(Processed, AppendNew(s.mem.rows[d].chunks, Jn(s).chunks), None))
        .(done := CommitOf(ex, s.done, d, Jn(s)), op := Idle)
    case CommitInDoubt =>
      var d := s.op.doc;
      WithRow(s, d, Row(Processed, AppendNew(s.mem.rows[d].chunks, Jn(s).chunks), None))
        .(done := CommitOf(ex, s.done, d, Jn(s)), op := Doubt(d, s.done, s.mem.rows[d]))
    case Revoke => WithRow(s, s.op.doc, s.op.row.(status := Failed)).(done := s.op.prior, op := Idle)
    case RecordFailure => WithRow(s, s.op.doc, s.mem.rows[s.op.doc].(status := Failed)).(op := Idle)
    case RecordFailureWithCandidates =>
      var j := Jn(s).(cands := CandidatesOf(ex, Batch(s)));
      WithRow(s, s.op.doc, s.mem.rows[s.op.doc].(status := Failed, journal := Some(j))).(op := Idle)
    case Abort => s.(op := Idle)
  }

  ghost function NextRoll(s: State, e: RollStep): State
    requires EnabledRoll(s, e)
  {
    match e
    case StartRollback(d) =>
      var j := s.mem.rows[d].journal.value;
      s.(op := Roll(d, Classify(s.mem.graph, s.mem.tracking, Elems(j.chunks), j.cands, Rollback), Cutting))
    case Repoint(k) => s.(mem := s.mem.(tracking := s.mem.tracking[k := s.op.plan.rebuild[k]]))
    case CutEdge(k) => s.(mem := s.mem.(graph := s.mem.graph - {k}))
    case CutNode(n) => s.(mem := s.mem.(graph := RemoveNode(s.mem.graph, n)))
    case Forget(k) => s.(mem := s.mem.(tracking := s.mem.tracking - {k}))
    case EndCut => s.(op := s.op.(stage := Rebuilding))
    case RebuildTracking(k) => s.(mem := s.mem.(tracking := s.mem.tracking[k := s.op.plan.rebuild[k]]))
    case RebuildGraph(k) => s.(mem := s.mem.(graph := s.mem.graph[k := s.op.plan.rebuild[k]]))
    case EndRebuild => s.(op := s.op.(stage := Rebuilt))
    case DropText => s.(mem := s.mem.(text := s.mem.text - Batch(s)))
    case FinishDrop => s.(op := s.op.(stage := Emptied))
    case DropAnchors(ents) => s.(mem := s.mem.(anchors := WithoutRow(s.mem.anchors, s.op.doc, ents)))
    case FinishAnchors => s.(op := s.op.(stage := Unanchored))
    case DropBody => s.(mem := s.mem.(bodies := s.mem.bodies - {s.op.doc}))
    case DropRow => s.(mem := s.mem.(rows := s.mem.rows - {s.op.doc}), op := s.op.(stage := RowDropped))
    case FinishCreate => s.(op := Idle)
    case Prune(ents) => s.(mem := s.mem.(anchors := s.mem.anchors - Pruned(s, ents)))
    case Restore =>
      var d := s.op.doc;
      WithRow(s, d, Row(Processed, Without(s.mem.rows[d].chunks, Batch(s)), None)).(op := Idle)
  }

  ghost function Next(ex: Chunk -> Extraction, s: State, e: Event): State
    requires Enabled(ex, s, e)
  {
    match e
    case Persist(p) => NextPersist(s, p)
    case Ins(i) => NextInsert(ex, s, i)
    case Rol(r) => NextRoll(s, r)
  }
}
