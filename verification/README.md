# LightRAG: crash recovery of custom-chunk operations, deletion, and budgeted context

This project models the parts of LightRAG that promise something over many steps and in the presence of failures,
and proves those promises. `dafny verify dfyconfig.toml` checks all of it.

## What is modelled

**The journaled custom-chunk operation** (`ainsert_custom_chunks`, its rollback, and the purge both rely on).
The stores are the graph, the entity and relation chunk tracking, the chunk rows, the recovery anchors
(`full_entities`, `full_relations`), the document bodies and `doc_status` with its journal. Each has a copy in memory
and a copy on disk.

- `Kg` defines provenance: an entity or a relation is the set of chunks it cites. It holds extraction, the merge
  candidates and the classification of purge candidates.
- `Protocol` is the operation as a state machine. One step is one write of one store, one flush or spontaneous
  persistence of part of a store, one discard, or one crash, so "at every reachable state" means at every point where
  the program can stop. Immediate-write backends are the runs in which every write is followed by its persistence. A
  status write may take effect and still report an error. A commit that does so is in doubt: the failure record revokes
  it by overwriting its row, and it stands if that record fails or the process crashes first.
- `Safety` states the invariant; `InsertSteps`, `RollSteps` and `Runs` prove that every step keeps it.
- `Guarantees` draws the consequences for whole runs: atomicity, roll-forward, no dangling provenance, recoverability.
- `Orphans` proves when a document body outlives its document: exactly where the durable deletion of the status row
  overtakes that of the body. `EmptyId` proves what a creation under the empty document id loses, and that nothing else
  does.
- `Leak` shows where the guarantee ends: a left-over tracking row, with the exact condition and a concrete run.
  `Necessity` proves that a merge which begins over such a row always has a continuation that breaks the guarantee.
- `MergeResult` proves that a merge that runs to its end computes the graph in closed form, in whatever order it takes
  entities and relations.
- `Operations` is class `LightRag`: the methods in the order in which they write, each write allowed to fail and to
  take effect all the same, and the restart after a crash. Every write is logged as a step of `Protocol` (`Moves`
  holds the step definitions in the form the methods use), so whatever holds of runs holds of these methods at every
  point where they can fail.

**Purging and deleting.** `Purge` proves that a purge converges however often it is interrupted. `CachedRebuilds` is
the best-effort rebuild from the LLM cache: which objects it can rebuild, and when a purge is therefore complete.
`Deletion` is class `DocumentStore` with `adelete_by_doc_id`, including the record of LLM cache ids kept for retries;
`DeletionCrashes` is that record over stores that reach the disk one by one.

**Budgeted context.** `Trimming` (bisection, row-bounded table trimming, the truncation marker), `Surroundings`
(atoms, the separator cascade, the two walks outwards from the target) and `TableRows` (the row parser and printer).

**Smaller pieces.** `Rerank` (windows, aggregation, ranking), `Headings` (cleaning and breadcrumbs), `Identity`
(chunk and operation ids), `Migration` (index and tracking migration). `Text`, `Places` and `Options` hold strings, the
places a filter keeps, and options.

## Assumptions

- One operation runs at a time: the pipeline's busy slot and the per-document lock are taken as a single writer.
- MD5 is injective. In `Protocol` a chunk id is therefore the pair of its document and text, and an operation id the
  ordered list of submitted chunk ids; `Identity` proves that the strings that are hashed determine exactly these.
- Extraction is a fixed function of the chunk, because the extraction cache is flushed before any merge
  (LightRAG/lightrag/lightrag.py:1885-1900).
- Entity and relation stores of one kind are one map over keys; a relation key has its endpoints in sorted order.
- A run starts from a settled store (`Guarantees.Settled`): nothing pending, every object with a source, every edge
  within its endpoints' sources, tracking rows in step with the graph, owners anchored (under the empty id no anchors
  unless that document exists).
- A merge begins only if no object it adds has a tracking row left over from elsewhere (`Safety.Careful`, which a
  caller can check in the stores; `Operations.Tidy` is the form in which `InsertCustomChunks` asks it of its caller).
  The source does not check it, and without it the claims are false: `Leak.LeftoverReturns` is a concrete run, and
  `Necessity.CarefulIsExact` and `Necessity.UntidyCallReturns` show that no weaker condition would do, at the merge or
  at the call.
- The hypotheses can all be met: `Leak.LeftoverReturns` exhibits a settled store, `LightRag` is constructed from any
  settled store, and where nothing fails `InsertCustomChunks` and `RollbackOne` are proved to succeed, so every phase
  of the protocol is reached by states that satisfy the invariant.
- A tokenizer counts nothing for the empty string and never more for a concatenation than for its parts.

The code contradicts its own write-ahead promise in one case. `ainsert_custom_chunks` accepts the empty document id
(LightRAG/lightrag/lightrag.py:1623-1626), for which the merge skips the anchors (LightRAG/lightrag/operate.py:3321).
The model does the same, and the theorems say what then holds.

Where comments and code differ, the model follows the code: the docstring of `_purge_kg_contributions` speaks of the
union of tracking and graph sources, but the code reads the tracking row and falls back to the graph only when that
is missing or empty (LightRAG/lightrag/lightrag.py:3972-3991).

## Model

| member | source | states |
|---|---|---|
| Kg.EdgeKeyIdentifiesTheUndirectedPair | LightRAG/lightrag/utils.py:4727-4730 | An edge and its reverse have one key, and different edges have different keys |
| Kg.CandidatesOfCover | LightRAG/lightrag/operate.py:3200-3234 | The journaled candidates include every object a merge may write, and with every relation both endpoints |
| Kg.ClassifyCandidates | LightRAG/lightrag/lightrag.py:3965-4077 | The classification loop computes the plan `Classify`: candidates absent from the graph skipped, sources from tracking with the graph as fallback, dropped exactly when nothing remains, rebuilt with exactly what remains; `PurgeConverges` and `RollSteps.PlanIsOk` say what that plan achieves |
| InsertSteps.StagedIdsAreFresh | LightRAG/lightrag/lightrag.py:1786-1816 | If the owned chunks have their rows, no staged id is one the document owns, and a submission of owned content leaves nothing to stage |
| InsertSteps.FreshKeepsTheRest | LightRAG/lightrag/lightrag.py:1786-1816 | The filter keeps exactly the chunks whose text no row of an owned chunk holds, in their order |
| InsertSteps.ResumeKeeps | LightRAG/lightrag/lightrag.py:1745-1849 | A resume, which rewrites the journal and recomputes its chunks, writes back the very journal it found, old candidates included, and keeps the invariant |
| InsertSteps.UnionInOrder | LightRAG/lightrag/lightrag.py:1952-1978 | The committed list keeps what it has and goes on with the new chunks in their order, none of them twice |
| RollSteps.PlanIsOk | LightRAG/lightrag/lightrag.py:3965-4077 | The plan of a rollback, computed at any reachable state, drops no committed object and leaves every rebuilt one with all its committed sources, none of the staged ones, and no illegitimate one |
| RollSteps.RebuiltCitesNone | LightRAG/lightrag/lightrag.py:4229-4259 | After the rebuild no object of the graph and no tracking row of one cites a staged chunk, so the chunk rows may go |
| Runs.NewDoubt | LightRAG/lightrag/lightrag.py:1952-2003 | Doubt about a commit arises only from a commit that took effect and reported an error, and what a revocation would return to is the state before it |
| Runs.DoubtKeeps | LightRAG/lightrag/lightrag.py:1979-2003 | While a commit is in doubt both outcomes stay safe: the state as committed and the state as if it had not been, through every flush, persistence, discard and crash |
| Runs.StepKeepsInv | LightRAG/lightrag/lightrag.py:1824-2003 | Every write, flush, discard, failure and crash of insert, resume, commit, doubt and rollback keeps the store safe, in both possible outcomes of a commit in doubt; a merge must begin with care, which `Necessity.CarefulIsExact` shows to be exactly what is needed |
| Guarantees.SettledIsSafe | LightRAG/lightrag/lightrag.py:1745-1816 | A store at rest satisfies the invariant |
| Guarantees.RunKeepsInv | LightRAG/lightrag/lightrag.py:1824-2003 | The invariant holds at every state of every run |
| Guarantees.EveryStateIsSafe | LightRAG/lightrag/lightrag.py:1885-1921 | At every state of every run, in memory and on disk: each cited chunk has its row in both copies, no edge lacks an endpoint, and each citation is found again through a durable anchor or the durable journal of its document, except a committed citation of the document with the empty id for which no anchor is on record |
| Guarantees.JournalIsDetermined | LightRAG/lightrag/lightrag.py:1745-1849 | Whatever failures and resumes precede it, a committing operation has exactly the journal of a first attempt |
| Guarantees.HistoryIsReplay | LightRAG/lightrag/lightrag.py:1952-1978 | The committed data of a run are those of its commits, each applied in one atomic step; a commit that reported an error counts unless the failure record then overwrote it |
| Guarantees.RunsAreAtomic | LightRAG/lightrag/lightrag.py:1850-2003 | Whenever no journal is left, memory and disk hold exactly what the committed operations produce one after another, with tracking rows in step; bodies are exact if and only if none has outlived its status row; all else has left nothing |
| Guarantees.RollbackIsAtomic | LightRAG/lightrag/lightrag.py:2331-2440 | A run whose commits were none, or were all revoked, has once rolled back restored graph, chunk rows and status rows, with the tracking rows of all objects empty or in step; the anchors of a document exactly if they were exact, otherwise they cover what it owns; bodies if and only if none has outlived its status row |
| Guarantees.RollForwardIsIdempotent | LightRAG/lightrag/lightrag.py:1745-1978 | Two runs that commit the same operations end with the same graph, chunk rows and status rows, with the same recorded sources of every object of the graph, and, if no body outlived its row in either, the same bodies, whatever either went through |
| Guarantees.CommittedIsNoOp | LightRAG/lightrag/lightrag.py:1786-1816 | Content all of which is committed stays so under any later operations, and has nothing left to stage |
| Guarantees.RepeatIsNoOp | LightRAG/lightrag/lightrag.py:1786-1816 | A committed operation submitted again, at any later time, has nothing left to stage |
| Guarantees.ContentStays | LightRAG/lightrag/lightrag.py:1786-1816 | Once an operation has committed, its content is committed at every later state of the run, through failures, crashes and commits that are revoked |
| Guarantees.CommitAnchorsExactIff | LightRAG/lightrag/lightrag.py:2186-2224 | A commit keeps its document's anchors exact if and only if each candidate is contributed to or already owned (a self-loop relation is the candidate that is not), or, for a creation under the empty id, which adds none, if it contributes to nothing new; other documents' anchors stay exact |
| Orphans.OvertakenIsRolledBack | LightRAG/lightrag/lightrag.py:2399-2410 | A status row leaves the disk before its body only by a flush of the status rows, and only that of a creation that is being rolled back |
| Orphans.OrphanedIff | LightRAG/lightrag/lightrag.py:2399-2410 | A body is left without a row at the end of a run if and only if the durable deletion of its row overtook that of the body, which has stayed on disk since |
| Orphans.BodiesAreExactIff | LightRAG/lightrag/lightrag.py:2331-2410 | When no operation is open, the bodies on disk are the committed ones if and only if that has happened to none, and then memory has no others either |
| EmptyId.CreationIsAnchoredIff | LightRAG/lightrag/operate.py:3315-3363 | A creation that commits leaves what it contributes to anchored if and only if its id is not empty or it contributes to nothing |
| EmptyId.NamedRunsAreRecoverable | LightRAG/lightrag/lightrag.py:1623-1626 | Where nothing is created under the empty id, every citation at every state of every run is found again |
| EmptyId.NamelessCreationIsLost | LightRAG/lightrag/lightrag.py:1952-1978 | A concrete run: a creation under the empty id commits; its citation cannot be found again, and a purge by the document's anchors visits nothing |
| Leak.MergeIsLegitimateIff | LightRAG/lightrag/operate.py:2296-2323 | The graph that a merge leaves (`MergeNodesAndEdges` computes it) has only legitimate citations if and only if no object it adds has a left-over tracking row that it reads and that names other chunks |
| Leak.LeftoverReturns | LightRAG/lightrag/lightrag.py:3933-3941 | A concrete run: a creation crashes after a tracking write, is rolled back in full, and the next creation makes the graph cite the deleted chunk |
| Leak.BodyOutlivesRow | LightRAG/lightrag/lightrag.py:2399-2410 | A concrete run: a creation is rolled back, the deletion of its status row alone reaches the disk, and the process crashes |
| Necessity.MemoryRowReturns | LightRAG/lightrag/operate.py:2296-2323 | From any beginning over a left-over row in memory that the merge reads, one merge write later the graph cites what no document backs |
| Necessity.DiskRowReturns | LightRAG/lightrag/operate.py:2574-3197 | From any safe beginning over such a row on disk, or one the merge overwrites, a run through a crash and a resume makes the graph cite what no document backs |
| Necessity.CarefulIsExact | LightRAG/lightrag/lightrag.py:1923-1950 | At any safe state where a merge may begin: beginning with care keeps the invariant, and beginning without it has a continuation to a citation that no document backs |
| Necessity.UntidyCallReturns | LightRAG/lightrag/lightrag.py:1745-1816 | Any admitted call that is not tidy has a continuation, through staging, journaling and the merge, to a citation that no document backs |
| MergeResult.MergedIsClosedForm | LightRAG/lightrag/operate.py:3237-3564 | A merge of all entities and relations of the batch, taken in any order, leaves the graph `Leak.MergedGraph`, read off the stores before it |
| Operations.TidyIsCareful | LightRAG/lightrag/lightrag.py:1923-1950 | What `InsertCustomChunks` asks of its caller is enough for its merge to begin with care, once the chunk rows are flushed |
| Operations.CarefulIsTidy | LightRAG/lightrag/lightrag.py:1923-1950 | And it is no more than that |
| Operations.SwallowedIff | LightRAG/lightrag/lightrag.py:1777-1785 | A call does nothing although its content is not committed if and only if a body stands without a status row |
| Operations.OrphanedBodySwallows | LightRAG/lightrag/lightrag.py:1777-1785 | After the run of `Leak.BodyOutlivesRow` every call that would create the document does nothing |
| Operations.Entries | LightRAG/lightrag/lightrag.py:1635-1652 | The entries are the non-empty submitted texts, each once |
| Operations.EntriesInOrder | LightRAG/lightrag/lightrag.py:1635-1652 | Each entry has its place by the first occurrence of its text: the entries of a beginning of the list are a beginning of the entries |
| Operations.VerdictOnTexts | LightRAG/lightrag/lightrag.py:1777-1816 | Nothing is to be done if and only if all texts are empty, or a body stands without a row, or the document is processed, has no open operation and stores every text in a row of one of its chunks |
| Operations.LightRag.constructor | LightRAG/lightrag/lightrag.py:1745-1748 | Starts a run from a settled store |
| Operations.LightRag.WriteGraph | LightRAG/lightrag/lightrag.py:4134-4136 | A graph write is one step; failed, it may or may not have taken effect, and no other store changes |
| Operations.LightRag.WriteTracking | LightRAG/lightrag/lightrag.py:4089-4115 | A tracking write, likewise; any of its rows may become durable at once |
| Operations.LightRag.WriteText | LightRAG/lightrag/lightrag.py:1868-1883 | A chunk-row write, likewise; a row in both copies that is not being deleted stays in both |
| Operations.LightRag.WriteAnchors | LightRAG/lightrag/lightrag.py:2200-2222 | An anchor write, likewise |
| Operations.LightRag.WriteBodies | LightRAG/lightrag/lightrag.py:1872-1883 | A document-body write, likewise |
| Operations.LightRag.WriteRow | LightRAG/lightrag/lightrag.py:2112-2184 | A status upsert is durable when it returns; one that reports an error may or may not have taken effect |
| Operations.LightRag.WriteCommit | LightRAG/lightrag/lightrag.py:1952-1978 | The commit's upsert: committed, not committed, or committed and reported as failed, in which case it is in doubt |
| Operations.LightRag.DeleteRow | LightRAG/lightrag/lightrag.py:2402-2409 | A status delete changes memory only, until the next flush; one that reports an error may or may not have taken effect |
| Operations.LightRag.Flush | LightRAG/lightrag/lightrag.py:2767-2816 | A flush barrier changes only the named disk copies, towards memory; if it succeeds all of them equal memory |
| Operations.LightRag.DiscardBuffers | LightRAG/lightrag/lightrag.py:2683-2765 | Discarding pending writes leaves the disk and the status rows alone |
| Operations.LightRag.CollectMergeCandidates | LightRAG/lightrag/operate.py:3226-3234 | The loop over chunk results computes the candidate superset of the batch |
| Operations.LightRag.ChunkEntries | LightRAG/lightrag/lightrag.py:1635-1649 | The loop computes the entries of the submission |
| Operations.LightRag.FilterCommitted | LightRAG/lightrag/lightrag.py:1791-1810 | The filter keeps exactly the chunks whose text no committed row holds |
| Operations.LightRag.Resolve | LightRAG/lightrag/lightrag.py:1745-1816 | Rejected if and only if another operation is open on the document, or none is and it is not processed; nothing to do if and only if the submission is empty, a body stands without a row, or the processed document stores every submitted text; otherwise admitted, so an operation that failed resumes |
| Operations.LightRag.OpenJournal | LightRAG/lightrag/lightrag.py:1824-1849 | The journal is durable before any other store changes, names the operation and exactly its batch; a failure changes nothing |
| Operations.LightRag.StageChunks | LightRAG/lightrag/lightrag.py:1850-1900 | On success chunk rows, and for a new document its body, are durable; graph, tracking, anchors and rows are untouched, and no chunk row is lost |
| Operations.LightRag.JournalMergeCandidates | LightRAG/lightrag/lightrag.py:1902-1921 | The journal takes the batch's candidates before the merge may begin, and they are in the journal kept for the failure record even if the upsert fails; no other document's row changes |
| Operations.LightRag.PrewriteRecoveryAnchors | LightRAG/lightrag/operate.py:3315-3363 | For a new document every candidate is a durable anchor before the merge; under the empty id nothing is written |
| Operations.LightRag.MergeNode | LightRAG/lightrag/operate.py:2243-2571 | A mentioned entity ends in tracking and graph with what it had and every staged chunk that mentions it, nothing else is written, and no object loses a staged chunk it had reached |
| Operations.LightRag.CreateEndpoint | LightRAG/lightrag/operate.py:2574-3197 | A missing endpoint is created, graph before tracking, with the sources of its relation |
| Operations.LightRag.ExtendEndpoint | LightRAG/lightrag/operate.py:2574-3197 | An existing endpoint gains the sources of its relation and is written only where that changes something |
| Operations.LightRag.MergeEdge | LightRAG/lightrag/operate.py:2574-3197 | A relation and both endpoints end with every staged chunk that states it, and the stores are what the entities and relations merged so far make of them; a self-loop is not merged |
| Operations.LightRag.MergeNodes | LightRAG/lightrag/operate.py:3369-3446 | After the entity phase every staged chunk has reached every entity it mentions, and the stores are what the merge of all entities makes of them |
| Operations.LightRag.MergeEdges | LightRAG/lightrag/operate.py:3448-3550 | After the relation phase every staged chunk has reached every relation it states and its endpoints, what the entity phase reached is kept, and the stores are what the merge of all relations makes of them |
| Operations.LightRag.MergeNodesAndEdges | LightRAG/lightrag/operate.py:3237-3564 | After a complete merge every staged chunk has reached every object it contributes to, and the graph is exactly the closed form `Leak.MergedGraph` of the stores before it |
| Operations.LightRag.MergeKnowledge | LightRAG/lightrag/lightrag.py:1930-1955 | Anchors, merge and flush of all stores, leaving the journal and all status rows as they were |
| Operations.LightRag.UnionDocRecoveryAnchors | LightRAG/lightrag/lightrag.py:2186-2224 | A patch's anchors become the old ones plus exactly its candidates, durably |
| Operations.LightRag.CommitOperation | LightRAG/lightrag/lightrag.py:1952-1978 | PROCESSED is written last, with the chunk lists united in order; what is committed is what one uninterrupted attempt commits; a failure leaves the insert open or the commit in doubt |
| Operations.LightRag.RecordOperationFailure | LightRAG/lightrag/lightrag.py:1979-2003 | A failure keeps journal and chunk list, the candidates included, and commits nothing; a commit in doubt is revoked by the record or, if the record fails too, stands; no other document is touched |
| Operations.LightRag.ApplyOperation | LightRAG/lightrag/lightrag.py:1850-1978 | From an open journal to the commit, or to a failure with the insert still open on its journal or the commit in doubt |
| Operations.LightRag.FlushOrDiscard | LightRAG/lightrag/lightrag.py:2058-2071 | The flush after a commit, successful or not, leaves status rows and committed data as they are |
| Operations.LightRag.RunOperation | LightRAG/lightrag/lightrag.py:1824-2003 | An admitted operation commits, or aborts with nothing changed, with its own journal kept, or, where only the report of the commit failed, committed |
| Operations.LightRag.RepeatDoesNothing | LightRAG/lightrag/lightrag.py:1745-1816 | Whatever the store has gone through since the operation committed, the same submission is rejected while another operation is open on the document, and otherwise does nothing |
| Operations.LightRag.InsertCustomChunks | LightRAG/lightrag/lightrag.py:1574-2110 | Does nothing or rejects exactly in those cases, stated in the rows and texts before the call, and then changes nothing; otherwise commits exactly what one first attempt would, with every text in a row of a chunk of the document, or fails with the journal kept or, where only the report of the commit failed, committed; the retry of a failed operation without further failures succeeds; other documents untouched; without failures it always succeeds; a call repeated after it committed, at any later time, is rejected or does nothing |
| Operations.LightRag.RepointTracking | LightRAG/lightrag/lightrag.py:4088-4115 | The tracking rows of what stays name exactly the remaining sources |
| Operations.LightRag.ForgetRows | LightRAG/lightrag/lightrag.py:4137-4204 | Only the named tracking rows are deleted, and the graph is untouched |
| Operations.LightRag.RemoveEdges | LightRAG/lightrag/lightrag.py:4122-4136 | Dropped edges are gone, nothing is added, tracking is untouched |
| Operations.LightRag.RemoveNodes | LightRAG/lightrag/lightrag.py:4157-4194 | Dropped nodes are gone with all their edges, nothing is added |
| Operations.LightRag.CutKnowledge | LightRAG/lightrag/lightrag.py:4088-4227 | Steps 2 to 5 carry out the plan and make it durable, without touching status rows |
| Operations.LightRag.RebuildObjects | LightRAG/lightrag/operate.py:990-1307 | What is still in the graph gets exactly its planned sources |
| Operations.LightRag.RebuildKnowledge | LightRAG/lightrag/lightrag.py:4229-4259 | The repaired graph is durable before any chunk row goes |
| Operations.LightRag.DeleteChunks | LightRAG/lightrag/lightrag.py:4261-4279 | The staged chunk rows are gone from both copies |
| Operations.LightRag.DeleteAnchors | LightRAG/lightrag/lightrag.py:4281-4297 | A new document's anchors go last, durably |
| Operations.LightRag.PurgeKgContributions | LightRAG/lightrag/lightrag.py:3829-4299 | A rollback purge reaches the point where nothing cites the staged chunks and their rows are gone, or fails with journal and rows as they were |
| Operations.LightRag.UnearnedAnchors | LightRAG/lightrag/lightrag.py:2584-2624 | The loop finds exactly the candidate anchors that no owned chunk earns |
| Operations.LightRag.PruneDocRecoveryAnchors | LightRAG/lightrag/lightrag.py:2566-2634 | Of the candidates only those the document still contributes to remain anchored, durably |
| Operations.LightRag.DeleteBodyAndRow | LightRAG/lightrag/lightrag.py:2407-2408 | The body goes before the status row; on failure the row is as it was |
| Operations.LightRag.RemoveDocument | LightRAG/lightrag/lightrag.py:2399-2410 | The rollback of a creation succeeds only once body and status row are gone from both copies, and no other body with them |
| Operations.LightRag.RestoreDocument | LightRAG/lightrag/lightrag.py:2412-2440 | The rollback of a patch ends with the journal cleared, or with the row as it was |
| Operations.LightRag.RollbackOne | LightRAG/lightrag/lightrag.py:2331-2440 | Clears the journal or leaves the row for the next attempt; a failure whose last write took effect leaves it cleared; commits nothing, touches no other document, takes away exactly the body of a creation, succeeds if nothing fails |
| Operations.LightRag.RollbackFailedPatches | LightRAG/lightrag/lightrag.py:2226-2329 | Every open operation is rolled back or reported, documents without one are untouched, and once none failed the store is exactly what its committed operations made it, its bodies those of before without the open creations' |
| Operations.LightRag.OpenOperationsAreDiscoverable | LightRAG/lightrag/lightrag.py:2272-2279 | Every journaled row has one of the two statuses the rollback scan looks for |
| Operations.LightRag.Restart | LightRAG/lightrag/lightrag.py:2772-2816 | After a crash at any point of any operation memory is what the disk holds, and the store is a valid start for whatever comes next |
| Operations.LightRag.RestartAndScan | LightRAG/lightrag/lightrag.py:2226-2329 | A restart and a scan of the open operations: if the scan finishes clean, memory and disk hold exactly what the operations committed before the crash produce, bodies included if and only if the crash left none but committed ones without a status row; and it does finish clean if nothing fails |
| Purge.ReadsAreStable | LightRAG/lightrag/lightrag.py:3965-4077 | What a purge reads for an object does not depend on how far earlier attempts came |
| Purge.PlansAgree | LightRAG/lightrag/lightrag.py:3902-4077 | Every attempt drops exactly the doomed candidates it finds and rebuilds with exactly the remaining sources |
| Purge.GraphWriteStaysWithin | LightRAG/lightrag/lightrag.py:4122-4249 | No single graph write leads out of what interrupted purges can leave |
| Purge.TrackingWriteStaysWithin | LightRAG/lightrag/lightrag.py:4088-4204 | Nor does any single tracking write |
| Purge.PurgeConverges | LightRAG/lightrag/lightrag.py:3829-4299 | A complete purge of any mixture of old and repaired rows leaves what one uninterrupted purge leaves |
| Purge.RerunsConverge | LightRAG/lightrag/lightrag.py:3829-4299 | Over all runs: after any number of failed attempts, writes persisted in any order and crashes, an attempt that carries out its plan leaves that same graph |
| Purge.BestEffortConvergesIff | LightRAG/lightrag/lightrag.py:3998-4012 | A best-effort purge converges from everything an interruption can leave if and only if no purged chunk stands in a tracking row alone |
| Purge.HiddenChunkDiverges | LightRAG/lightrag/lightrag.py:3998-4012 | For every such chunk, the state after one write from which the rerun leaves the graph unrepaired |
| Purge.TargetConserves | LightRAG/lightrag/lightrag.py:3829-4299 | A citation survives exactly if its chunk is not purged, an object exactly if a source is left, and edges keep their endpoints and stay within them |
| Purge.TargetIsClean | LightRAG/lightrag/lightrag.py:3998-4012 | Even where the graph lists fewer sources than tracking does, no purged chunk is cited afterwards |
| Purge.NothingDangles | LightRAG/lightrag/lightrag.py:4229-4279 | Over all runs of a purge: every citation is one the store knew before, and from the moment a complete purge is on disk no copy of the graph ever cites a purged chunk again, so their rows may go |
| CachedRebuilds.PurgedRowsAreNotRead | LightRAG/lightrag/operate.py:1309-1400 | Which objects can be rebuilt does not depend on the chunk rows the purge deletes, whether they are gone already or not |
| CachedRebuilds.AnythingCachedIff | LightRAG/lightrag/operate.py:1053-1083 | The rebuild returns at once if and only if the cache holds no extraction of any chunk that a rebuilt object keeps, under an id that the row of such a chunk lists |
| CachedRebuilds.NamedIff | LightRAG/lightrag/operate.py:1309-1400 | The cache has something to rebuild an object from if and only if it holds, listed likewise, an extraction of one of the object's own remaining chunks that names it |
| CachedRebuilds.PurgeIsCleanIff | LightRAG/lightrag/operate.py:990-1307 | From whatever interrupted attempts left, and with whatever part of the candidates it finds, a best-effort purge leaves nothing that cites a purged chunk if and only if every object to be rebuilt that cites one passes the guard of its rebuild and was written and nothing it does not visit cites one; with all candidates in sight the last is always so |
| CachedRebuilds.PurgeRepairsIff | LightRAG/lightrag/operate.py:1624-1889 | It leaves what an uninterrupted purge with complete rebuilds leaves if and only if every object that a rebuild would change passes its guard and was written |
| CachedRebuilds.DeletionConservesIff | LightRAG/lightrag/operate.py:1891-2195 | Exactly the citations of other chunks survive a deletion if and only if every object to be rebuilt passes its guard; which objects survive, and that edges keep their endpoints, does not depend on it |
| CachedRebuilds.EmptyCacheRebuildsNothing | LightRAG/lightrag/operate.py:1053-1083 | With no extraction in the cache every survivor keeps the row it had |
| CachedRebuilds.NothingDanglesIff | LightRAG/lightrag/lightrag.py:4229-4279 | Once its chunk rows are gone, no citation of a best-effort purge dangles if and only if that same condition holds |
| Deletion.AttemptRepairs | LightRAG/lightrag/lightrag.py:4705-5149 | A retry that finds only part of the anchors still repairs every object, given that what the missing ones named was repaired before |
| Deletion.DocumentStore.constructor | LightRAG/lightrag/lightrag.py:4501-4547 | The chunks to purge are those of the row's two lists, its own and the staged ones; the candidates the anchors and those only the journal names; the cache entries those the row records or its chunk rows list |
| Deletion.DocumentStore.WriteKnowledge | LightRAG/lightrag/lightrag.py:4919-5110 | A graph or tracking write that takes effect or not, and in either case leaves a state the next attempt can finish |
| Deletion.DocumentStore.UpdateTracking | LightRAG/lightrag/lightrag.py:4919-4962 | Step 4: the tracking rows of what is rebuilt name its remaining sources and no others change; at every point the next attempt can finish |
| Deletion.DocumentStore.RemoveEdges | LightRAG/lightrag/lightrag.py:4983-5020 | Dropped relations are gone from the graph and from tracking, and nothing else is |
| Deletion.DocumentStore.RemoveNodes | LightRAG/lightrag/lightrag.py:5021-5110 | Dropped entities are gone with all their edges, from the graph and from tracking, and no other tracking row changes |
| Deletion.DocumentStore.Rebuild | LightRAG/lightrag/lightrag.py:5126-5149 | Returns at once if no referenced chunk has a cached extraction; otherwise each object to be rebuilt has exactly its remaining sources if it passes the guard and its write succeeded, and is as it was if not |
| Deletion.DocumentStore.RebuildObject | LightRAG/lightrag/operate.py:1624-1889 | One object: rebuilt if a cached extraction of a remaining source names it, or it is an entity with an edge; a failed write leaves it as it was and is swallowed |
| Deletion.DocumentStore.DeleteChunkRows | LightRAG/lightrag/lightrag.py:4964-4982 | Only the document's chunk rows go and the others are as they were; it may be called only once the status row leads to every cache entry |
| Deletion.DocumentStore.PurgeDocument | LightRAG/lightrag/lightrag.py:4705-5149 | On success the graph is exactly `CachedRebuilds.Purged` of what the attempt found, the plan, the chunk rows and the cache, the tracking rows are the planned ones and otherwise as they were, every object is repaired or skipped, and the chunk rows are gone; on failure the next attempt can finish |
| Deletion.DocumentStore.CollectCacheIds | LightRAG/lightrag/lightrag.py:4619-4660 | Only ids that the row records or a chunk row of the document lists are collected, on success all of them, and with them every existing entry the document ever referenced |
| Deletion.DocumentStore.UpdateRetryState | LightRAG/lightrag/lightrag.py:3618-3661 | The row keeps the ids for a retry, changes in nothing else, and never loses ids it kept before |
| Deletion.DocumentStore.DeleteCacheIds | LightRAG/lightrag/lightrag.py:5151-5195 | Only the listed entries go and the others are as they were; success means none of the listed is left; on failure those that are stay on the list |
| Deletion.DocumentStore.DeleteAnchors | LightRAG/lightrag/lightrag.py:5197-5206 | Only this document's anchors go, entities before relations, and only once the graph is repaired |
| Deletion.DocumentStore.DeleteRecords | LightRAG/lightrag/lightrag.py:5208-5220 | The status row goes before the body, so no status row outlives its body |
| Deletion.DocumentStore.DeleteWithChunks | LightRAG/lightrag/lightrag.py:4612-5220 | Success removes rows, body, anchors and chunk rows, leaves the graph exactly `CachedRebuilds.Purged` and the tracking rows as planned, and with cache deletion leaves no entry the document led to; failure keeps what a retry needs; whatever happens, only what belongs to the document is touched, and the cache only if asked |
| Deletion.DocumentStore.DeleteWithoutChunks | LightRAG/lightrag/lightrag.py:4549-4610 | Success removes row and body and, if asked, the recorded cache entries; a failed body deletion brings the status row back; nothing else is touched |
| Deletion.DocumentStore.Delete | LightRAG/lightrag/lightrag.py:4301-5267 | Over any sequence of failed attempts the graph stays repairable and every cache entry on record. Whatever the outcome, rows, bodies, anchors and chunk rows of other documents and all cache entries the document does not lead to are as they were, and without the request the whole cache is. A success leaves no row of any chunk in the row's two lists, none of the cache entries it led to if asked, tracking rows as planned, and nothing that cites a purged chunk if and only if, in the store before the call, the objects to be rebuilt that cite one pass the guard, and were written, and nothing out of the attempt's sight cites one; without failures it succeeds and all of them are written |
| Deletion.DocumentStore.DeletionConserves | LightRAG/lightrag/lightrag.py:4301-5267 | For a first attempt, as a question about the store before the call: exactly the citations of other documents survive if and only if every rebuild candidate passes the guard |
| Deletion.DeletedChunkStaysCited | LightRAG/lightrag/operate.py:1053-1083 | Two documents mention one entity and nothing is cached: deleting the first succeeds, its chunk row is gone, and the entity still cites its chunk |
| DeletionCrashes.RecordOutlastsCrashes | LightRAG/lightrag/lightrag.py:4612-4702 | Whatever is flushed and whenever the process crashes, as long as the status row is on disk every cache entry of the document on disk can be found from it or from a chunk row, which is what a retry starts from |
| DeletionCrashes.LostIff | LightRAG/lightrag/lightrag.py:5151-5300 | A cache entry of the document is lost if and only if the row's deletion became durable while the entry was on disk, from where its own deletion has not followed |
| DeletionCrashes.RowOvertakesCache | LightRAG/lightrag/lightrag.py:2818-2821 | A concrete run: in the flush that ends a successful deletion the row goes first, the process crashes, and the entry is left |
| Trimming.CharTrimLeading | LightRAG/lightrag/multimodal_context.py:230-245 | A suffix within the budget for every tokenizer, and the longest one if counts are monotone |
| Trimming.CharTrimTrailing | LightRAG/lightrag/multimodal_context.py:248-263 | A prefix within the budget, likewise |
| Trimming.CharFallback | LightRAG/lightrag/multimodal_context.py:377-446 | No result exactly if the empty table is too much; else a one-cell table within the budget, holding the most characters if counts are monotone |
| Trimming.RowTrimTable | LightRAG/lightrag/multimodal_context.py:271-370 | Within the budget, at least as many whole rows as any number that fits, next to the target; otherwise part of the closest row |
| Trimming.TrimKeepsSections | LightRAG/lightrag/multimodal_context.py:307-315 | A table is its rows next to the target and the others; trimmed to k rows it holds the k next to the target and, as HTML, parses back to exactly these, each in its own section |
| Trimming.TrimKeepsClosest | LightRAG/lightrag/multimodal_context.py:271-370 | As JSON it holds the k rows next to the target, joined by commas |
| Trimming.CellKeepsClosest | LightRAG/lightrag/multimodal_context.py:377-446 | Where no row fits, the one cell holds, quoted or escaped, the end of the closest row's text that is next to the target |
| Trimming.DecimalReadsBack | LightRAG/lightrag/multimodal_context.py:790-851 | Decimal notation reads back as the number, and begins with no zero but for zero |
| Trimming.MarkerReadsBack | LightRAG/lightrag/multimodal_context.py:790-851 | The marker says the original count first, up to the word that follows, and then the count that is kept |
| Trimming.DecimalLength | LightRAG/lightrag/multimodal_context.py:790-851 | A smaller number never has more digits, which is why the final marker is no longer than the announced one |
| Trimming.MonotoneMarkerFits | LightRAG/lightrag/multimodal_context.py:795-851 | If the announced marker fits and markers with no more digits count no more, the marker fits whatever is kept |
| Trimming.LongestFillsBudget | LightRAG/lightrag/multimodal_context.py:248-263 | For a tokenizer that counts one more per character, the longest prefix within the budget uses all of it |
| Trimming.TrimContentToBudget | LightRAG/lightrag/multimodal_context.py:795-851 | Cut exactly if over a positive budget: a prefix or trimmed table, then the marker with its actual size, together within the budget if the marker fits next to each number of tokens that may be kept, which a caller can check; for text and a tokenizer that adds up at the seam and counts characters one by one, within the budget if and only if it fits next to the full room |
| Trimming.TrimTwice | LightRAG/lightrag/multimodal_context.py:795-851 | A second call is the identity, whenever the first one's marker fits or nothing is cut |
| Trimming.MarkerCanOverflow | LightRAG/lightrag/multimodal_context.py:795-851 | Where the marker does not fit the result can exceed the budget: a tokenizer and an input |
| Surroundings.Atomize | LightRAG/lightrag/multimodal_context.py:106-128 | The atoms of the text: whole tags, and between them stretches in which no tag begins, as long as possible |
| Surroundings.FoundIsTag | LightRAG/lightrag/multimodal_context.py:93-98 | What is recognised at the start of a string is such a tag, up to where that tag ends |
| Surroundings.TagIsFound | LightRAG/lightrag/multimodal_context.py:93-98 | Every such tag is recognised, with its kind and its end |
| Surroundings.AtomizeTiles | LightRAG/lightrag/multimodal_context.py:106-128 | They concatenate to the text and are its only tiling into whole tags and maximal plain stretches, a tag being what the pattern says: `<table`, a word boundary, the first `>` after it and the first `</table>` after that; equations likewise; a drawing up to its first `>` with a slash before it |
| Surroundings.TagsStayWhole | LightRAG/lightrag/multimodal_context.py:106-128 | No tag of the text begins within a plain atom, and every other atom is the tag that begins where it stands |
| Surroundings.TableIsTag | LightRAG/lightrag/multimodal_context.py:377-446 | What a table is trimmed to is one table tag again if and only if no closing tag shows up in its new body |
| Surroundings.Pieces | LightRAG/lightrag/multimodal_context.py:210-218 | The pieces cut after each separator are non-empty and concatenate to the text |
| Surroundings.PiecesEndAtSeparators | LightRAG/lightrag/multimodal_context.py:210-218 | Each piece goes up to the first separator in it, and only the last may have none |
| Surroundings.SplitsIff | LightRAG/lightrag/multimodal_context.py:201-220 | A separator cuts the text if and only if it occurs before its end |
| Surroundings.FirstSplit | LightRAG/lightrag/multimodal_context.py:192-221 | The segments concatenate to the text |
| Surroundings.SplitTextSegment | LightRAG/lightrag/multimodal_context.py:192-221 | The segments are the pieces at the first separator that cuts at all, and its index is returned; with none, the text itself |
| Surroundings.AccumulateText | LightRAG/lightrag/multimodal_context.py:536-586 | Adds a non-empty end of the text within the budget, as many whole segments as fit if the closest one does, and nothing only if no character fits and the text does not fit as a whole; the cascade terminates. The trailing twin (lines 648-681) is the same method with the flag off |
| Surroundings.AccumulateWithin | LightRAG/lightrag/multimodal_context.py:560-586 | If the closest segment alone overflows, weaker separators and then characters are tried, with the same guarantees |
| Surroundings.BuildSide | LightRAG/lightrag/multimodal_context.py:465-533 | One side of the surroundings is within its cap and is built by the walk over the only tiling of the text, which has been cleaned, after other tables were dropped for a table; nothing for an empty text or a cap of zero or less |
| Surroundings.BuildFromAtoms | LightRAG/lightrag/multimodal_context.py:589-645 | The walk in either direction: ends of visited texts, whole tags, at most one trimmed table and that at the far end, within the budget, ending only for one of the stated reasons |
| Surroundings.AddTrimmed | LightRAG/lightrag/multimodal_context.py:508-533 | A tag that does not fit ends the walk; of a table that does not fit as a whole the rows that fit are still taken |
| Surroundings.OneTextIsContiguous | LightRAG/lightrag/multimodal_context.py:493-533 | For a single text atom the side is one contiguous end of the text |
| Surroundings.EverythingFits | LightRAG/lightrag/multimodal_context.py:465-533 | A text all of whose ends count within the cap is returned whole |
| Surroundings.ContiguousIfOnlyLastIsPartial | LightRAG/lightrag/multimodal_context.py:493-533 | So it is whenever only the last visited atom contributes less than all of its text |
| Surroundings.PartialTextIsSkipped | LightRAG/lightrag/multimodal_context.py:493-533 | In general it is not: for a concrete text and tokenizer the walk goes on past the rest of a partly taken atom |
| TableRows.SplitHtmlRows | LightRAG/lightrag/table_markup.py:133-167 | The rows are exactly those the body reads as, in order and with their markup, each in the section whose opening tag is the last before it unless that section was closed since; no result exactly if there are none |
| TableRows.MatchIff | LightRAG/lightrag/table_markup.py:52-58 | What is matched at the start of a string is what it begins with: `<tr`, a word boundary, the first `>` after it and the first `</tr>` after that, or the opening or closing tag of a section, in letters of either case |
| TableRows.ReadingIsUnique | LightRAG/lightrag/table_markup.py:133-167 | There is only one way to read a body as tags and rows outside of which nothing begins |
| TableRows.GapChangesNothing | LightRAG/lightrag/table_markup.py:140-164 | Text in which no tag and no row begins changes neither the rows that follow nor their sections |
| TableRows.LineBreaksKeepSections | LightRAG/lightrag/table_markup.py:133-167 | With line breaks between the tags a row of the head is still in the head |
| TableRows.SerializeHtmlRows | LightRAG/lightrag/table_markup.py:170-191 | The loop prints the rows with a section tag at each change of section |
| TableRows.OneSectionMarkup | LightRAG/lightrag/table_markup.py:170-191 | Rows of one section are printed with one pair of its tags |
| TableRows.MarkupAtChange | LightRAG/lightrag/table_markup.py:170-191 | Where the section changes, the two parts are printed one after the other as if each stood alone |
| TableRows.RowInContext | LightRAG/lightrag/table_markup.py:133-167 | A row is matched as the same row whatever follows it, and what is matched in context is a row on its own |
| TableRows.RowsRoundTrip | LightRAG/lightrag/table_markup.py:133-191 | Printing and parsing gives back all well-formed rows with their sections, and so for every head and tail slice |
| TableRows.ScannedRowsAreWellFormed | LightRAG/lightrag/table_markup.py:133-167 | Whatever is parsed, from any string, is well-formed |
| TableRows.SplitIsStable | LightRAG/lightrag/table_markup.py:133-191 | Splitting, printing and splitting again is splitting, for every body |
| Rerank.SplitTokens | LightRAG/lightrag/rerank.py:109-130 | The window loop terminates and computes the windows |
| Rerank.ChunkDocuments | LightRAG/lightrag/rerank.py:34-130 | An error exactly for a budget below one; otherwise all windows in order with their documents, an overlap that leaves no room to advance giving way to an advance of half a window, rounded up |
| Rerank.WindowsCover | LightRAG/lightrag/rerank.py:109-130 | No window exceeds the budget, without their overlaps they are the document, and a document of n > m tokens has ceil((n - o) / (m - o)) |
| Rerank.WindowsStand | LightRAG/lightrag/rerank.py:109-130 | Window k starts k advances after the first, also where a negative overlap skips tokens, and there is a next one exactly if the text goes on and the next one starts within it |
| Rerank.CeilIsRoundedUp | LightRAG/lightrag/rerank.py:109-130 | That count is the least number of steps that suffices |
| Rerank.IndicesNeverDecrease | LightRAG/lightrag/rerank.py:106-130 | The indices never decrease and each is that of a document |
| Rerank.IndicesGroupWindows | LightRAG/lightrag/rerank.py:106-130 | The windows with a document's index are exactly its own, in order and in one stretch |
| Rerank.GroupScores | LightRAG/lightrag/rerank.py:133-170 | Each document gets the scores of its own windows; unknown chunk indices are ignored |
| Rerank.ScoresInOrder | LightRAG/lightrag/rerank.py:133-170 | A document's scores are those of the results for its own windows, in the order these came |
| Rerank.AggregateChunkScores | LightRAG/lightrag/rerank.py:133-188 | One entry for exactly the documents with a score, which is the best of its windows, their mean or the first that came; sorted by descending score, ties by document |
| Rerank.RankingIsBestFirst | LightRAG/lightrag/rerank.py:366-380 | After aggregation by maximum and the top_n cut: every document at most once with the best score of its own windows, ranked with ties by document, and whatever is left out ranks below everything kept |
| Rerank.Rerank | LightRAG/lightrag/rerank.py:240-382 | End to end, for any answer of the ranking service: an error exactly for a budget below one; otherwise every document at most once, with the best score the service gave to one of its own windows, ranked with ties by document, the first top_n of that ranking |
| Headings.CleanIsTidy | LightRAG/lightrag/chunk_schema.py:98-122 | A cleaned heading has no separator arrow, no control code, single spaces only and none at its ends |
| Headings.CleanIsWords | LightRAG/lightrag/chunk_schema.py:98-122 | A cleaned heading is its words, as arrows and whitespace separate them and without control codes, with one space between them |
| Headings.ControlsSeparate | LightRAG/lightrag/chunk_schema.py:92-122 | Tab, line feed, carriage return, form feed and vertical tab separate words, whether or not they count as control codes |
| Headings.CleanIsIdempotent | LightRAG/lightrag/chunk_schema.py:98-122 | Cleaning twice is cleaning once, and cleaning fixes exactly the tidy headings |
| Headings.Truncate | LightRAG/lightrag/chunk_schema.py:125-132 | A level over the cap is a beginning of the heading and an ellipsis, as long as the cap allows but for trailing space; others are unchanged |
| Headings.LevelsAreCapped | LightRAG/lightrag/chunk_schema.py:125-145 | Levels are never empty, hold no arrow, and keep to a cap of at least one |
| Headings.LevelsInOrder | LightRAG/lightrag/chunk_schema.py:133-145 | The levels are the headings that have any words, in order, each cleaned and capped |
| Headings.FormatHeadingContext | LightRAG/lightrag/chunk_schema.py:172-198 | The loop joins the cleaned, capped levels of the parents and the chunk |
| Headings.SplitJoin | LightRAG/lightrag/chunk_schema.py:38-38 | Splitting a joined chain on the separator gives back the chain |
| Headings.BreadcrumbRoundTrip | LightRAG/lightrag/chunk_schema.py:172-198 | Splitting the breadcrumb gives back exactly its levels, and it is empty exactly if there are none |
| Identity.ScopedIsInjective | LightRAG/lightrag/utils_pipeline.py:304-327 | Document and remainder are recovered from the length-prefixed string that is hashed |
| Identity.PlainConcatenationIsNot | LightRAG/lightrag/utils_pipeline.py:304-314 | Without the length two different documents would hash alike |
| Identity.ChunkIdsAreDocumentScoped | LightRAG/lightrag/utils_pipeline.py:304-314 | Equal chunk ids if and only if equal document and text |
| Identity.BarsAreInjective | LightRAG/lightrag/utils_pipeline.py:317-327 | A list of ids is recovered from its joined form |
| Identity.OperationIdIsTheInput | LightRAG/lightrag/utils_pipeline.py:317-327 | Equal operation ids if and only if the same document and the same texts in the same order |
| Migration.ChunkToDoc | LightRAG/lightrag/storage_migrations.py:104-125 | Each chunk is filed under the last document that lists it, and a chunk that none lists under none |
| Migration.BuildIndex | LightRAG/lightrag/storage_migrations.py:126-183 | A key stands under a document exactly if a source chunk of one of its records is filed there; no empty entries |
| Migration.AddSources | LightRAG/lightrag/storage_migrations.py:126-183 | One record adds its key under exactly the documents its sources are filed under |
| Migration.IndexIsInverse | LightRAG/lightrag/storage_migrations.py:104-183 | With disjoint chunk lists the index is the exact inverse: d holds k if and only if a source chunk of k is listed by d |
| Migration.SeedTracking | LightRAG/lightrag/storage_migrations.py:221-324 | Seeding in batches of 500 equals one pass over all records: a key gets a row exactly if one of its records names a source, namely the non-empty sources of the last such record in order and as often as they occur, and all other keys keep their rows |
| Migration.Payload | LightRAG/lightrag/storage_migrations.py:242-260 | The payload of a batch holds exactly the keys with a record that names a source, each with the sources of its last one |
| Migration.OnePassKeepsLast | LightRAG/lightrag/storage_migrations.py:221-324 | Exactly the keys with a record that names a source get a row, and it is the sequence of all non-empty sources of the last such record |

## Left out

- Operations.LightRag.InsertCustomChunks: asks its caller for `Tidy`, that objects it will add have no left-over tracking rows; the source does not check this. `Necessity.UntidyCallReturns` shows that any admitted call without it can end in a citation that no document backs.
- Guarantees.RollbackIsAtomic: does not restore anchors that named more than a document owned and were candidates of the operation; they come back without that surplus. Tracking rows of objects that are not in the graph are not restored either, and a row of one that is may come back empty, which reads as the graph row.
- Guarantees.RollForwardIsIdempotent: tracking rows may differ for objects that are not in the graph.
- Operations.LightRag.RebuildObjects: entity and relation data are not reconstructed, only their sources; the rollback policy's structural repair counts as a rebuild.
- Operations.LightRag.MergeNodesAndEdges: entities and relations are merged one at a time in any order. In the source tasks run concurrently under locks on the entities they touch (LightRAG/lightrag/operate.py:3387-3389, 3468-3472); `Protocol` lets merge writes interleave freely, but the closed form of the graph is proved for merges that take one object after another.
- Purge.PurgeConverges: for the best-effort policy under the condition `Visible`, which `BestEffortConvergesIff` shows to be exact.
- Operations.LightRag.WriteRow: both copies of the status row change or neither does. On the JSON backend an upsert that fails may have changed memory alone (LightRAG/lightrag/kg/json_doc_status_impl.py:260-297), until the next upsert or a crash.
- Deletion.DocumentStore.constructor: asks that anchors and journal cover what the purged chunks support. `Guarantees.EveryStateIsSafe` is that promise for every document whose id is not empty; `EmptyId.NamelessCreationIsLost` is a document without it.
- DeletionCrashes.RecordOutlastsCrashes: a cache whose deletes are buffered deletes all that it is asked to, so that a shrunken list of ids is written only where the rest is no longer on disk.
- Deletion.DocumentStore.Delete: each write is durable at once here; crashes are the runs of `Purge` for graph and tracking rows and of `DeletionCrashes` for the record of cache ids. The source deletes chunk rows before it repairs the graph, so between the two a citation may dangle; `Purge.NothingDangles` and `CachedRebuilds.NothingDanglesIff` are about `_purge_kg_contributions`, which deletes them last.
- Deletion.DocumentStore.DeleteWithoutChunks: the ids kept for a retry may be lost with the status row, as in the source, whose failure handler there does not know that the row has just been deleted.
- Deletion.DocumentStore.Rebuild: a cache entry is one extraction with what it parses to; entries that fail to parse, the stored source lists that a rebuild caps, and the summaries written with it are not modelled.
- Operations.LightRag.RollbackOne: leaves out the deletion of the operation's LLM cache entries and the recovery warning, either of which can also fail a rollback, which then keeps its journal.
- Surroundings.ContiguousIfOnlyLastIsPartial: its condition is on the pieces the walk took; `OneTextIsContiguous` and `EverythingFits` are the cases that can be seen before the call.
- Trimming.TrimContentToBudget: `MarkerFits` is exact for plain text and tokenizers that add up at the seam and step by one; for others it is sufficient, not necessary, since a tokenizer may count the joined text for less than its parts.
- Trimming.CharFallback: JSON quoting, HTML escaping and tag stripping are parameters, as is how a table tag is read (`detect_table_format`, `parse_table_tag`).
- Surroundings.BuildSide: the cleaning functions and the table remover applied before counting are arbitrary string functions; leading and trailing are one method with a direction flag.
- TableRows.SplitHtmlRows: letters outside ASCII are neither folded in case nor counted as word characters.
- Rerank.WindowsCover: for overlaps of at least zero, after the clamp. The fallback without a tokenizer (lines 79-103) is the same method on characters at four times the sizes.
- Rerank.AggregateChunkScores: scores are reals, without rounding and without NaN; encoding and decoding tokens are not modelled.
- Headings.CleanIsTidy: which characters are control codes or whitespace is a parameter, with the few facts used stated in `Sensible`.
- Migration.BuildIndex: reading the graph in full and writing the index to the stores are not modelled.
- Source-id caps of the graph, descriptions, weights, embeddings and vector stores: provenance is the set of all sources; `Purge` allows the graph to list fewer than tracking does.
- Pipeline status, reservations, locks, cancellation, logging and time stamps.
- `ainsert_custom_kg` and the direct graph edits, which the recovery guarantee does not cover.
- The file pipeline, queries, roles, prompts, the HTTP side of reranking, and the metadata carry-over helpers: configuration, input and output, or easy members only.
- `normalize_chunk_heading`, `find_target_span` and sidecar files: they would add only easy members.
