# A verified model of anvay

anvay indexes source code and documents for retrieval. This project models the parts where the
order of steps or the exact arithmetic carries the meaning, and proves what they keep:

- **Delta sync.** Four writers (a source pass, a single-resource reindex, the enrichment worker and
  the orphan sweep) keep a manifest of rows and an index of points in step without a transaction
  over both. `Stores` has the two stores and the writes, `Plans` the writes each operation makes,
  `Claims` all interleavings of them with a crash between any two, `Runs` what holds of whole runs,
  `ClaimLimits` the places where a naive statement fails, `DeltaRun` when a delta run equals a full
  rebuild, `PassEffect` what is left of each resource in terms of its content alone, `Backend` and `Ingest` the same operations as methods over objects updated in place,
  `Interrupted` the crash states of a pass, and `Sweep` the sweep, alone and among writers.
- **Approval.** `Approval` has worktree, git index, HEAD, remote and proposal rows under the
  approve, commit, push and roll back steps.
- **Council session hub.** `SessionHub` has critical sections and single queue puts in any order.
- **Lines and stacks.** `Splitter`, `Gaps`, `Headings`, `Sections`, and `HitMerge` for search results.
- **Queues, ranking, derived data.** `RateLimit`, `EnrichmentQueue`, `Evidence`, `Neighbors`,
  `FactMerge`, `Metrics`. `Lists` holds what they share: slices, stable sorting, filtering.

## How to read the model

- Code that updates state is a class or a method with loops (`Backend`, `Ingest`, `SkillsRepo`,
  `Session`, `AuthStore`, `Registry`, `EnrichmentWorker`, `FactMerger`, the chunker and retrieval
  loops); each is tied to a function or relation, and the lemmas are about that.
- In `Claims`, a running operation is the list of writes it still has to make. `Advance` makes one,
  `Abort` is a crash or an error, and operations on different resources interleave freely. A batched
  upsert is refined to single puts. sha256 and uuid5 are constructors, hence injective; the chunker
  and the summaries are arbitrary functions of the content, fixed over a history.
- A `Uri` carries the source key that owns it. Two operations on one resource do not overlap, apart
  from late enrichment writes; `OverlappingReindexesLoseClaims` shows that this is needed.
- Claims are asked for at three levels: the point is there, it carries the row's hash, or its version
  as well. The worker compares hashes only, so an enrichment under another version is part of the
  system and safe up to the second level; an enrichment write that comes late is safe at the first.
- Two operations delete under a row they have not marked pending: removal, and an ingest without
  vector chunks (`Unmarked`). The claim is proved where neither is under way or died, and
  `RemovalExposes` and `NoVectorIngestExposes` show that it fails there.
- A graph refresh is a safe step only on a row that the index backs and that claims every chunk but
  the community summary. `RefreshBacksIff` and `IngestEndsFullIff` say exactly what goes wrong
  otherwise, also over a pending row: `indexStatus` is not looked at by the unchanged test.
- `update_payloads` writes no point that is not there, so a payload patch is no write.
- A store call that fails stands for the end of the process: all later calls fail too.
- In `Sweep`, `born` is an operation's `indexed_at`. `Legal` is what the code lets happen, `Timely` what
  the grace window stands for: an operation in flight under a sweep is younger than the window, and a
  late enrichment write no older than the operation it overtakes or the cutoff of the sweep under way.
  Four runs, each with one untimely move, show that no part of `Timely` can be left out.
  An approval may put the chunk of a skill at any time; its key belongs to no resource.
- An embedding that fails leaves out its whole batch: `left` in `RunIngest` names those resources, and
  `DoneFor` holds of all others, which is what the lemmas of `PassEffect` ask for.
- Times are integers. Confidences, scores and discounts are reals: rounding is not modelled.
- Regular expressions, `strip`, `splitlines`, name normalisation and id building are parameters.

## Findings

Each of these is a theorem below.

- A pending row whose source goes back to the recorded hash is skipped over half-written points, and
  such a state is reached by one crash.
- After a failed graph extraction a refresh without a community summary marks the row fresh though its
  summary is missing; the resource is skipped from then on.
- A chunk that keeps its id but changes collection leaves its old point behind.
- A point the sweep has scanned and a reindex then revives is deleted under its new claim.
- `finish` waits for ever before the full queue of a reader that has left, and the subscribers after it
  are not told that the session is over.
- The skills checkout is never fetched: one foreign commit on the remote blocks every approval.
- A job enqueued again while its older version runs is deleted when that version completes: exactly
  then is a job lost that nobody has claimed.
- Start lines of split text are one too high from the second piece on.
- A neighbour can be listed one way only, when an edge has both ends on one chunk.
- A node minted over an existing id can lose confidence and references.
- `max_facts` of zero or less still lets one fact through.
- The two nDCG functions disagree when nothing is relevant.

## Model

| member | source | states |
|---|---|---|
| `Stores.ApplyAllConcat` | anvay/ingest/pipeline.py:664-807 | running two lists of store writes one after the other is running their concatenation, so a crash may fall between any two |
| `Plans.BucketedSame` | anvay/ingest/indexer.py:171-202 | sending chunks collection by collection reorders them and neither loses nor adds a point or an id |
| `Claims.BackedMeansIdsBacked` | anvay/registry.py:670-684 | a row whose chunks are backed at a level has every id it claims in the index, with as much of the row's stamp as the level asks for |
| `Claims.StepKeepsInv` | anvay/ingest/pipeline.py:664-807 | every step of the interleaved system (begin, one write, abort, late enrichment write) that is safe at a level keeps the invariant at that level; unsafe at any level are only refreshes from rows not yet right, and at the finer levels late or other-version enrichment |
| `Runs.RunIsOwn` | anvay/ingest/incremental.py:61-97 | no run at all, safe or not, makes a resource claim, delete or record what belongs to another |
| `Runs.ExposedIsUnsettled` | anvay/ingest/pipeline.py:756-765 | points are deleted under a row marked indexed only after a removal, or an ingest without vector chunks that leaves old ids behind, was begun on the resource and before its row is written or deleted |
| `Runs.ClaimsAreBacked` | anvay/ingest/incremental.py:53-108 | in every reachable state a row marked indexed has all its ids in the index, unless such an operation is under way or died; without late enrichment they carry the row's hash, and its version too when enrichment keeps to it |
| `ClaimLimits.RefreshBacksIff` | anvay/ingest/pipeline.py:743-750 | a graph refresh leaves a backed row exactly when every chunk it claims, apart from community summaries put now, already had a point under the new stamp |
| `ClaimLimits.RemovalExposes` | anvay/ingest/pipeline.py:975-998 | removing a resource deletes its points before its row: just before the row goes, all rows are as they were and none of the ids it claims exists |
| `ClaimLimits.NoVectorIngestExposes` | anvay/ingest/pipeline.py:756-765 | a resource that now yields no chunk is not marked pending before its stale points go: just before its new row is written, its old row, indexed or not, stands unchanged over ids none of which exists |
| `ClaimLimits.LateEnrichKeepsIff` | anvay/ingest/enrichment_worker.py:142-171 | one late enrichment write keeps a backed row backed exactly when it carries the row's stamp or misses every claimed point |
| `ClaimLimits.OverlappingReindexesLoseClaims` | anvay/ingest/incremental.py:61-97 | two overlapping reindexes of one resource can end with an indexed row that claims a deleted point, so operations on one resource must not overlap |
| `DeltaRun.Projection` | anvay/ingest/pipeline.py:344-358 | what a resource looks like after any interleaving of batches depends on the writes for that resource alone |
| `DeltaRun.IngestEndsFullIff` | anvay/ingest/pipeline.py:664-807 | one resource's ingest ends with the row and the points a run from empty stores would give it, whatever the prior row, except that a refresh does so exactly when all it does not put is stamped already and, where it puts nothing, the row claims everything |
| `DeltaRun.DeltaEqualsFullIff` | anvay/ingest/pipeline.py:874-942 | from any stores whose rows claim their own ids, a failure-free delta run agrees with a run from empty stores on rows and claimed points if and only if each skipped resource is indexed, fully claimed and fully stamped and each refreshed one meets the refresh condition; new and changed ones need nothing |
| `DeltaRun.OthersStay` | anvay/ingest/pipeline.py:344-358 | a delta run changes no row and no point of another source key |
| `DeltaRun.AnyRunDeltaEqualsFullIff` | anvay/ingest/pipeline.py:344-358 | the same if-and-only-if after any run from empty stores, with crashes, late enrichment and unsafe refreshes |
| `DeltaRun.DeltaEqualsFull` | anvay/ingest/pipeline.py:975-998 | so from every safely reached state in which the rows matched by the unchanged test are finished, the delta run equals the full run |
| `DeltaRun.RevertedPendingRowIsReachable` | anvay/ingest/pipeline.py:664-689 | an ingest of changed content that dies after its upserts leaves a pending row that the old content matches, over the points of the new |
| `DeltaRun.RevertedPendingRowIsSkipped` | anvay/ingest/pipeline.py:876-927 | a pending row whose recorded hash is again the hash of the source is skipped, and then no delta run equals the full run |
| `DeltaRun.FailedExtractionIsNeverMadeGood` | anvay/ingest/pipeline.py:743-750 | after a failed graph extraction the refresh without a community summary marks the row fresh, and the resource is skipped from then on with its summary neither put nor claimed, though all it claims is backed |
| `DeltaRun.OnlyPendingRowsMatter` | anvay/ingest/pipeline.py:876-942 | with no unmarked deletes under way and every row due for a refresh finished, the delta run equals the full run if and only if no row matched by the skip test is pending |
| `PassEffect.StaleIdsGo` | anvay/ingest/pipeline.py:751-765 | whatever becomes of the graph, after an ingest no id the old row claims and the new one does not exists in either collection |
| `PassEffect.NextPassSkipsIff` | anvay/ingest/pipeline.py:766-778 | the next pass skips a resource just ingested exactly when its graph was written whole, or failed to be written and was whole before; otherwise it refreshes it |
| `PassEffect.ChangedIsRebuilt` | anvay/ingest/pipeline.py:664-807 | a new or changed content: the row claims exactly the code spans, other spans and synthetic chunks of the content, each has its point in its collection with its kind, the new stamp and time, and every other point of the resource is untouched but those only the old row claimed |
| `PassEffect.CurrentIsRefreshed` | anvay/ingest/pipeline.py:743-765 | an unchanged content whose graph is due: nothing but the community summary is put, and the row claims what the content has when there is one, else what it claimed before |
| `PassEffect.IngestNeverLoses` | anvay/ingest/pipeline.py:664-765 | wherever the ingest of a changed content is cut short, the index holds all ids its old row claims or all ids of the new content |
| `PassEffect.PassSkips` | anvay/ingest/pipeline.py:876-927 | in a pass a row with all its points, the content, the version and a whole graph stays as it is, with every point |
| `PassEffect.PassRefreshes` | anvay/ingest/pipeline.py:876-942 | one whose graph is due is refreshed, and its graph is whole then |
| `PassEffect.PassRebuilds` | anvay/ingest/pipeline.py:876-942 | everything else in the source is rebuilt: new, changed, of another version, or with a row that has lost a point |
| `PassEffect.PassRemoves` | anvay/ingest/pipeline.py:975-998 | what is gone from the source loses its row and exactly the points the row claimed |
| `PassEffect.PassLeavesNothingStale` | anvay/ingest/pipeline.py:751-765 | after a pass no id claimed by a whole row of its source key is left in the index without the new row claiming it |
| `PassEffect.ReindexRebuilds` | anvay/ingest/incremental.py:61-97 | a reindex rebuilds its resource in the same terms, without synthetic chunks; it deletes whatever the index holds of the resource besides, keeps the graph status, and touches no other resource |
| `PassEffect.EnrichmentPuts` | anvay/ingest/enrichment_worker.py:142-171 | an enrichment puts the points of its content again, with kind, stamp and time, and changes no row and no other point |
| `Backend.MakeBuckets` | anvay/ingest/indexer.py:171-192 | the dictionary of buckets flattens to the points of the first collection met, then those of the other, each in order |
| `Backend.Backend.MarkResourceIndexPending` | anvay/registry.py:644-668 | an existing row changes status only, a missing one becomes an empty pending row; a failed call changes nothing |
| `Backend.Backend.UpsertResourceManifest` | anvay/registry.py:559-590 | the row is replaced as a whole, or nothing happens |
| `Backend.Backend.DeleteResourceManifest` | anvay/registry.py:591-600 | the row goes, or nothing happens |
| `Backend.Backend.Upsert` | anvay/ingest/indexer.py:142-202 | what was sent before a failure is a prefix of the buckets in order, and all of them on success |
| `Backend.LeadGoesFirst` | anvay/ingest/indexer.py:171-202 | each collection is sent what is its own, in order, and the collection met first goes first |
| `Backend.Backend.DeletePointsByIds` | anvay/ingest/indexer.py:204-226 | at most one delete per collection, in order, none for an empty set |
| `Backend.Backend.ReindexResource` | anvay/ingest/incremental.py:53-108 | however it ends, the writes done are a prefix of mark, upsert, delete stale, record, and all of them exactly when it succeeds; it fails only when a store or the embedder does |
| `Backend.NeverLost` | anvay/ingest/incremental.py:61-97 | after any number of a reindex's writes the index holds all old ids of the resource or all new ones, and at the end exactly the new ones |
| `Backend.LeftoverKeysIff` | anvay/ingest/incremental.py:90-94 | a point of the resource survives a reindex exactly when it is a new chunk or shares the id of one in the other collection |
| `Ingest.ProcessBatch` | anvay/ingest/pipeline.py:598-807 | a batch performs for each of its resources a prefix of that resource's plan, all of it when nothing fails, nothing when the embedder does not answer, and nothing for other resources |
| `Ingest.RunIngest` | anvay/ingest/pipeline.py:344-358 | a pass fails only when a store does, having made a prefix of each resource's plan; else every resource has had its whole plan but those of the batches whose embedding failed, of which nothing was touched, so the delta theorem applies to the stores when none failed; all batches but the last are full |
| `Interrupted.InterruptedPassIsARun` | anvay/ingest/pipeline.py:375-403 | every store an interrupted pass can leave is that of a state reached by begin, advance and abort steps, so the invariant of the claims holds in its crash states |
| `Sweep.SweepOrphanPoints` | anvay/ingest/reconcile.py:38-95 | a dry run changes nothing; a real one removes exactly the points that are not spared, a spared one being claimed, young, of unknown age, of a skill or a synthetic summary; both report them exactly, and a spared point stays as it is even when the sweep fails |
| `Sweep.MoveKeepsWorld` | anvay/daemon.py:197-248 | every timely move of indexing, late enrichment and the approval of skills included, interleaved with snapshot, scan, delete and end of a sweep keeps the sweep's safety invariant |
| `Sweep.SweepIsSafe` | anvay/ingest/reconcile.py:47-89 | in every state reached by timely moves a point about to be deleted is claimed by a row, or about to be claimed by a running operation that does not put it first, only if it was put again after it was scanned |
| `Sweep.OnlyOldPlainPointsAreSwept` | anvay/ingest/reconcile.py:55-69 | and it is a code or doc point, of no skill, and of known age older than the cutoff |
| `Sweep.SweptClaimsAreBacked` | anvay/ingest/reconcile.py:38-95 | sweeps leave claims backed: after any timely run of safe steps and of sweeps that delete no point put again after its scan, an indexed row has all its points and ids, at each level, unless an operation with unmarked deletes was begun on it and has not got to its row |
| `Sweep.OldOperationIsSwept` | anvay/ingest/reconcile.py:47-66 | the grace window must cover operations in flight at the snapshot: one untimely snapshot, and a claimed point that nobody put again is about to be deleted |
| `Sweep.OldBeginIsSwept` | anvay/ingest/reconcile.py:47-66 | the same for an operation that begins under the sweep with an old time |
| `Sweep.OldLateWriteIsSwept` | anvay/ingest/enrichment_worker.py:163-171 | the same for a late enrichment write older than the reindex it overtakes, before the snapshot |
| `Sweep.OldLateWriteUnderSweepIsSwept` | anvay/ingest/enrichment_worker.py:163-171 | the same for a late enrichment write older than the cutoff of the sweep under way, the reindex being over |
| `Sweep.RevivedPointIsDeleted` | anvay/ingest/reconcile.py:80-89 | the exception happens: for every content a daemon indexes and every chunk of it there is a run in which the sweep is about to delete its point under an indexed row that claims it, a reindex having revived it after its scan |
| `Approval.SkillsRepo.EnsureCheckout` | anvay/skills/git.py:41-73 | a checkout of the right origin is kept, a foreign one is an error, a missing one is cloned or the error leaves nothing |
| `Approval.SkillsRepo.CommitAndPush` | anvay/skills/git.py:76-114 | commits nothing where there is no repository; else, whatever the origin, stages everything, refuses an empty commit, and pushes only onto a remote the checkout is not behind |
| `Approval.SkillsRepo.RollbackCommit` | anvay/skills/git.py:117-137 | a working rollback takes HEAD and index back to the parent and leaves the worktree |
| `Approval.ApprovalDesk.ApproveProposal` | anvay/skills/approval.py:50-124 | the whole outcome and the whole new world of an approval, branch by branch |
| `Approval.OutcomeIff` | anvay/skills/approval.py:56-104 | when each outcome comes about, in terms of the proposal, the checkout, the remote and the text |
| `Approval.ApprovalWritesFile` | anvay/skills/approval.py:80-130 | a successful approval in either mode leaves the file with the call's text and the row with what the call came to; a local one leaves git alone, one in git mode leaves files, index, HEAD and remote at one new commit |
| `Approval.ApprovedFileStays` | anvay/skills/approval.py:83-107 | the file keeps that text through all later calls, whatever fails, until another proposal with its path is approved |
| `Approval.FailureRestoresIff` | anvay/skills/approval.py:86-104 | after a failed publish and a working rollback files, HEAD, remote and queue are as before, and so is everything exactly when the index was clean |
| `Approval.AllOrNothing` | anvay/skills/approval.py:65-124 | any outcome but success leaves the world as it was, or as a fresh clone; success in git mode adds one commit to the remote and approves one row |
| `Approval.FailedRollbackDisagrees` | anvay/skills/git.py:131-137 | after a failed publish worktree, index, HEAD and remote agree exactly when the rollback worked or the text was there already |
| `Approval.AgreementIsInvariant` | anvay/skills/git.py:76-137 | worktree, index, HEAD and remote agree after any sequence of approvals with failing pushes |
| `Approval.ApprovedMeansPushed` | anvay/council/queue.py:380-430 | over any sequence of calls, local ones and failing rollbacks included, each proposal approved in it was approved by one of the calls, whose mode, actor and indexing its row records, and its file is there; in git mode the very commit that call pushed, with its text under the proposal's path, is in the remote |
| `Approval.PublishedTextStays` | anvay/skills/approval.py:86-124 | from any state, the text of a successful git approval stays in the remote's history through all later calls, whatever fails |
| `Approval.StaleCheckoutNeverPublishes` | anvay/skills/git.py:45-56 | nothing fetches: once the remote holds a commit the checkout lacks, no later call reaches the remote, and a proposal changes only by a local approval |
| `SessionHub.StepKeepsInv` | anvay/council/runner.py:44-76 | every critical section and every single put, in any interleaving, keeps the hub's invariant |
| `SessionHub.NothingAfterEnd` | anvay/council/runner.py:53-68 | in every run nothing follows an end marker in what a queue's reader has taken and can still take, so none gets two |
| `SessionHub.EverySubscriberIsEnded` | anvay/council/runner.py:330-332 | once the session has ended, what each queue still subscribed has handed out and holds is the events published since it joined minus drops, then one end marker |
| `SessionHub.StuckUntilRead` | anvay/council/runner.py:58-59 | but the marker is put with a put that waits: in every run in which the full queue it stands before is not read, finish stays there and the queues after it get no marker |
| `SessionHub.FinishMayNeverEnd` | anvay/council/runner.py:53-76 | and that is reached from the start: a reader that is a full queue behind leaves once finish has begun, and a subscriber that has read every event waits for its marker |
| `SessionHub.DeliveredInOrder` | anvay/council/runner.py:44-51 | at any moment what a queue has handed out and holds is a subsequence, in order, of what was published since it joined |
| `SessionHub.FirstEventsAreKept` | anvay/council/runner.py:49-62 | in every run no queue holds more than its 2048 items, and the first 2048 events after a subscriber joined all reach it, however slowly it reads |
| `SessionHub.KeepingUpLosesNothing` | anvay/council/runner.py:44-51 | a reader that never lets 2048 events pile up gets every event published since it joined, in order, however long the session |
| `SessionHub.Session.PublishEvent` | anvay/council/runner.py:44-51 | one publish offers the event once to each queue subscribed at its section and keeps the invariant |
| `SessionHub.Session.SubscribeQueue` | anvay/council/runner.py:61-68 | a new queue joins with nothing sent, or ended at once when the session is over |
| `SessionHub.Session.FinishSection` | anvay/council/runner.py:53-57 | the session is over before any end marker is put, and the queues to end are those subscribed then |
| `Splitter.KeptIsShortest` | anvay/ingest/chunker.py:673-680 | the overlap is the shortest suffix of the buffer with at least 70 characters, or all of it |
| `Splitter.SplitOversized` | anvay/ingest/chunker.py:659-687 | the loop yields the pieces whose properties the next rows state |
| `Splitter.PiecesAreComplete` | anvay/ingest/chunker.py:665-687 | all lines are in the pieces, each piece has a line no earlier piece had and is at most max(700, 69 + 2L) characters when no line exceeds L |
| `Splitter.StartsDrift` | anvay/ingest/chunker.py:681 | the reported start of the first piece is exact, and that of every later one exactly one too high |
| `Splitter.PiecesAreLinked` | anvay/ingest/chunker.py:668-686 | each piece but the last ends because the next line would take it past 700 characters, and the next piece starts with the fewest last lines of it that have 70 characters, or all of them |
| `Splitter.OnlyLineEndsStripped` | anvay/ingest/chunker.py:671 | what is yielded is its buffer without the line ends at the end, all of them |
| `Splitter.OverlapsDroppedRebuild` | anvay/ingest/chunker.py:665-687 | dropping each buffer's overlap and joining the rest gives back the text, character for character |
| `Gaps.EmitUncovered` | anvay/ingest/chunker.py:697-725 | the chunks are exactly the maximal uncovered runs of lines whose stripped text is long enough, in order and disjoint, for nested or overlapping ranges alike |
| `Gaps.GapsMeet` | anvay/ingest/chunker.py:697-725 | two maximal gaps that share a line are one |
| `Gaps.EveryLineAccounted` | anvay/ingest/chunker.py:697-725 | every line is in a range or in a maximal gap, which is emitted exactly when it is long enough |
| `Headings.ChunkerPaths` | anvay/ingest/chunker.py:591-603 | filtering the stack by level yields, for each heading, the chain of nearest preceding headings of smaller level |
| `Headings.ExtractorParents` | anvay/graph/extractor.py:419-436 | popping while not smaller yields, for each heading, the nearest preceding heading of smaller level |
| `Headings.TwoStacksAgree` | anvay/graph/extractor.py:426-436 | each path is the path of the extractor's parent plus the heading, and an ancestor is a heading with everything after it deeper |
| `Headings.AncestorIff` | anvay/ingest/chunker.py:591-603 | a heading is an ancestor exactly when all headings after it, up to the one in question, have a greater level |
| `Sections.ChunkMarkdown` | anvay/ingest/chunker.py:574-607 | the line loop flushes at each heading and at the end, and keeps the stack of open headings |
| `Sections.SectionsAreBlocks` | anvay/ingest/chunker.py:579-607 | the sections are exactly the runs of lines from one heading to the next with enough text, each under the headings open at its start |
| `Sections.AllSectionsRise` | anvay/ingest/chunker.py:579-607 | sections come in line order and do not overlap |
| `Sections.EveryLineInOneBlock` | anvay/ingest/chunker.py:579-607 | every line lies in exactly one such run |
| `Sections.SectionPath` | anvay/ingest/chunker.py:597-603 | a section that starts with a heading is filed under that heading's chain of ancestors |
| `Sections.SplitDocComment` | anvay/ingest/chunker.py:508-533 | the comment is cut in front of its first blank line, unless that is its last, and head and remainder are the comment with line numbers that meet |
| `RateLimit.AuthStore.CheckRateLimit` | anvay/auth/store.py:460-482 | refuses exactly when the window is full and then leaves the table as it was; otherwise one row is added, of that subject just the rows in the window are left, and no other row goes |
| `RateLimit.TableIsEnough` | anvay/auth/store.py:467-476 | the rows still stored count the same in the window as all requests ever admitted |
| `RateLimit.EveryWindowIsBounded` | anvay/auth/store.py:460-482 | with a clock that never goes back, no window anywhere in a history of any buckets and subjects holds more than the limit |
| `RateLimit.RefusedIff` | anvay/auth/store.py:472-477 | a request is admitted if and only if the window ending at it holds fewer than the limit |
| `RateLimit.ClockSetBackOverfills` | anvay/auth/store.py:467-471 | a clock set back lets three requests into a window of two |
| `EnrichmentQueue.ClaimsAreBounded` | anvay/registry.py:776-840 | in every run an enqueue buys at most max_attempts claims, counted exactly by the attempts of the row |
| `EnrichmentQueue.SpentWaitingJobWasReset` | anvay/registry.py:877-886 | a pending job at the maximum was running its last attempt when a restart reset it, and has been left alone since; nothing else makes one |
| `EnrichmentQueue.HashIsLastEnqueued` | anvay/registry.py:776-817 | in every run a job carries the hash it was last enqueued with |
| `EnrichmentQueue.UpdatedIsLastTouch` | anvay/registry.py:819-886 | in every run its time is that of the last event that changed it, so a job tried in vain goes to the back of the queue |
| `EnrichmentQueue.CompletesClaimedIff` | anvay/registry.py:842-845 | in every run a completion deletes a job claimed since its last enqueue if and only if the row's attempts are above zero |
| `EnrichmentQueue.LostUnclaimedIff` | anvay/ingest/enrichment_worker.py:101-134 | in every run of one worker, completing its job deletes a job that nobody has claimed if and only if the id was enqueued again after the worker's claim |
| `EnrichmentQueue.Registry.ClaimEnrichmentJob` | anvay/registry.py:819-840 | hands out a claimable job that has waited longest, or nothing exactly when none is claimable |
| `EnrichmentQueue.Registry.FailEnrichmentJob` | anvay/registry.py:847-861 | back to pending, or failed once the attempts are used up |
| `EnrichmentQueue.GoneIff` | anvay/ingest/enrichment_worker.py:101-140 | a job goes away exactly when its row has moved on or one of its remaining attempts succeeds; else it fails with all attempts used |
| `EnrichmentQueue.EnrichmentWorker.ProcessOne` | anvay/ingest/enrichment_worker.py:101-134 | one round uses up an attempt or a job, changes the fate of none, and does nothing exactly when nothing is claimable |
| `EnrichmentQueue.EnrichmentWorker.RunUntilIdle` | anvay/ingest/enrichment_worker.py:85-140 | without new enqueues the loop ends, whatever the order of claims, with each job that had attempts left gone exactly when its row has another hash or is gone or an attempt left succeeds, else failed with all attempts used; and each other job as it was, a running one waiting |
| `EnrichmentQueue.IdleIsSettled` | anvay/ingest/enrichment_worker.py:85-134 | what the table then holds is exactly what each job's fate says |
| `Evidence.Dedupe` | anvay/retrieval/evidence.py:885-890 | under each key stands the first of the candidates worth most, in order of the keys' first appearance |
| `Evidence.RankedEntriesAreBest` | anvay/retrieval/evidence.py:885-902 | the ranked entries have distinct keys, fall in rank, cover every key, and are each the best candidate of their key with the filename flag set where an anchor names the file |
| `Evidence.RankRises` | anvay/retrieval/evidence.py:1309-1324 | a better score, a nearer place and a named file each rank higher, all else being equal |
| `Evidence.NamedFileComesFirst` | anvay/retrieval/evidence.py:1310-1313 | a named file outranks any other scoring up to 0.3 more, whatever channel, role and place, and by more it need not |
| `Evidence.ScoreDecides` | anvay/retrieval/evidence.py:1314-1324 | channel, role and place together never outweigh a lead of 0.2 in the score, and anything less they can |
| `Evidence.WeightsFall` | anvay/retrieval/evidence.py:1339-1360 | the exact order of the channels and of the roles, in rank and in what keeps its key |
| `Evidence.AnchoredFileComesFirst` | anvay/retrieval/evidence.py:892-902 | an entry of a file that an anchor names stands before every entry without the flag scoring less than 0.3 more |
| `Evidence.FillUp` | anvay/retrieval/evidence.py:926-939 | behind the quota picks come, in order of rank, exactly the entries that at their turn had fewer than two of their file or four files among those chosen, until the list is as long as asked for or nothing is left |
| `Evidence.MergeCandidates` | anvay/retrieval/evidence.py:879-941 | the result is the quota picks, the fill and the cut to top_k, by falling rank |
| `Evidence.MergedList` | anvay/retrieval/evidence.py:903-941 | so it has distinct keys, at most top_k, ranks that fall, the best hybrids, and all quota picks when they fit |
| `Evidence.ShortResultIff` | anvay/retrieval/evidence.py:929-939 | when it is shorter than asked for, an entry is left out exactly when two of its file and fewer than four files were chosen before its turn, and none is when the quota picks span four files |
| `Evidence.ThirdOfFileWaits` | anvay/retrieval/evidence.py:929-939 | no entry is added as the third of its file or later while fewer than four files are chosen |
| `Evidence.QuotasAreMet` | anvay/retrieval/evidence.py:914-922 | in a list of twenty or more the best of each channel are in, as many as the shape of the question promises it |
| `Evidence.OverviewsAreIn` | anvay/retrieval/evidence.py:921 | and the best overview, or the best two for a global question |
| `Evidence.TopHybridsAreIn` | anvay/retrieval/evidence.py:914-918 | each of the best-ranked hybrids up to min(top_k, max(3, top_k // 2)) is in the result |
| `HitMerge.MergeFile` | anvay/mcp_server/tools.py:646-670 | the loop computes the merge function whose meaning the next rows state |
| `HitMerge.GroupMerges` | anvay/mcp_server/tools.py:631-670 | merged hits of a file lie more than three lines apart, cover every hit, and carry the best score of the hits inside them |
| `HitMerge.GroupIsJustified` | anvay/mcp_server/tools.py:650-663 | a merged hit adds nothing: its ends, anchor and score are those of hits, and each of its lines is in a hit or in a gap small enough to bridge |
| `HitMerge.GroupKeepsTexts` | anvay/mcp_server/tools.py:652-662 | a hit's text, blanks at its ends apart, is contained in the merged hit that covers it, unless another hit covers its lines |
| `HitMerge.TextsStandInOrder` | anvay/mcp_server/tools.py:652-658 | what a merged hit holds stands in front of what the next hit brings to it, with the separator between, in the final text too |
| `HitMerge.HitsStandInLineOrder` | anvay/mcp_server/tools.py:646-658 | so of two hits in one result the one further up stands in front, when no other hit before the second has its lines |
| `HitMerge.GroupIsMadeOfRuns` | anvay/mcp_server/tools.py:646-670 | the hits in line order fall into one run for each result, which lists the lines of the run in order when there are several, has the anchor, first line and, blanks aside, first text of the first of them, and the farthest end and best score among them; a hit alone stays as it is |
| `HitMerge.MergingTwiceIsMergingOnce` | anvay/mcp_server/tools.py:646-670 | merging the merged hits of a file changes nothing |
| `HitMerge.MergeAdjacentHits` | anvay/mcp_server/tools.py:631-672 | scores fall; file by file exactly the merged hits, and the hits without a place as they were |
| `HitMerge.PackHits` | anvay/mcp_server/tools.py:675-701 | a hit's content is kept exactly when it fits into what those before it left of the budget; all else of the hit stays |
| `HitMerge.PackingFits` | anvay/mcp_server/tools.py:687-699 | the contents kept cost at most the budget |
| `HitMerge.LeftOutDoesNotFit` | anvay/mcp_server/tools.py:694-696 | a content left out does not fit into what remains at the end, and every anchor is kept |
| `HitMerge.WhatIsSent` | anvay/mcp_server/tools.py:687-698 | what is sent of a content is all of it, or in an excerpt its first 700 characters and a mark |
| `HitMerge.BudgetInChars` | anvay/mcp_server/tools.py:626-628 | all that is sent has at most four characters a token of the budget, and what is left out would pass that but for the rounding |
| `Neighbors.NodeToChunks` | anvay/ingest/pipeline.py:1171-1190 | a node is linked to a chunk exactly when a node of that id has a span in the resource that meets its lines |
| `Neighbors.MeetsIff` | anvay/ingest/pipeline.py:1171-1190 | a node meets a chunk exactly when it was seen in the resource at a place that shares a line with it |
| `Neighbors.BestConfidences` | anvay/ingest/pipeline.py:1192-1209 | the neighbours are exactly the chunks some edge contributes, each with the greatest confidence of such an edge |
| `Neighbors.Ranked` | anvay/ingest/pipeline.py:1210-1212 | the first eight of all neighbours by confidence, ties by id |
| `Neighbors.SurestAreListed` | anvay/ingest/pipeline.py:1210-1212 | at most eight, all when there are no more, falling in confidence, with none left out that is surer than one listed, and among equals the id that comes first |
| `Neighbors.TextOrderIs` | anvay/ingest/pipeline.py:1211 | ids compare by their first difference, and an id comes before what it begins |
| `Neighbors.NeighborChunkIds` | anvay/ingest/pipeline.py:1154-1214 | exactly the chunks with neighbours have a list, and it is the top eight of the neighbours the graph determines |
| `Neighbors.ContributesIff` | anvay/ingest/pipeline.py:1197-1203 | an edge contributes what it joins to the chunk, except that with both ends on the chunk only its target's chunks count |
| `Neighbors.OneSidedIff` | anvay/ingest/pipeline.py:1197-1203 | an edge lists one chunk under the other but not the reverse exactly when its source is anchored to both and its target only to the one listed |
| `FactMerge.Aliases` | anvay/graph/llm_extractor.py:419-435 | each name maps to the first node called so |
| `FactMerge.FactMerger.NodeIdForEntity` | anvay/graph/llm_extractor.py:365-416 | reuses the aliased node of the same or no file, else mints one and moves the alias to it |
| `FactMerge.EntityMeets` | anvay/graph/llm_extractor.py:365-416 | which node an entity meets and what becomes of the nodes: the one its name stands for when that is tied to no file or to the entity's, else one of its own; no other node changes |
| `FactMerge.NodeConfidenceFallsIff` | anvay/graph/llm_extractor.py:376-403 | a node's confidence falls exactly when it is minted over and stood above 0.8 |
| `FactMerge.NodeReferencesGoIff` | anvay/graph/llm_extractor.py:376-403 | a node loses a reference exactly when it is minted over and had one to another place than the fact's |
| `FactMerge.FactKeeps` | anvay/graph/llm_extractor.py:271-315 | one fact keeps the graph closed, loses no id and no reference, evidence or confidence of an edge, and makes no second edge between the same ends of the same type |
| `FactMerge.FactWrites` | anvay/graph/llm_extractor.py:271-315 | one fact writes one edge, from the subject's node to the target's, with its reference under its place, the greater confidence, and the evidence it had or else the fact's; no other edge changes |
| `FactMerge.FactIsSound` | anvay/graph/llm_extractor.py:256-322 | facts make nothing up: over any sequence of them each reference, confidence and evidence comes from the base or from a fact of the edge's type, and a node tied to a file no fact is about stays as it is |
| `FactMerge.FactMerger.MergeFacts` | anvay/graph/llm_extractor.py:256-322 | the same for any sequence of facts; nothing is made up, and every fact is carried in the end by an edge from a node its subject may go by to one its target may go by |
| `FactMerge.MergeLlmGraphFacts` | anvay/graph/llm_extractor.py:256-322 | from a closed base graph the whole merge, its aliases built from the nodes, ends in a closed graph with all of the above |
| `FactMerge.FilterFacts` | anvay/graph/llm_extractor.py:169-185 | the first facts that are sure enough and run forwards, up to the maximum but never fewer than one |
| `Metrics.HitsFirstIsBest` | evals/metrics.py:42-43 | among rankings with as many hits the one with all of them first gains most, and only it |
| `Metrics.NdcgBounds` | evals/metrics.py:46-56 | for labels without repetition nDCG is in [0, 1], and 1 exactly when the first min(relevant, k) are all relevant |
| `Metrics.RelevanceBounds` | evals/metrics.py:59-67 | the same for the form over booleans, when the top k hold at most the given count of hits |
| `Metrics.FormsAgreeIff` | evals/metrics.py:46-67 | the two forms differ just when nothing is relevant and something was retrieved |
| `Metrics.RepeatedLabelExceedsOne` | evals/metrics.py:46-56 | a repeated label takes nDCG above 1 |
| `Metrics.SwapRaises` | evals/metrics.py:42-56 | a relevant label that changes places with an irrelevant one above it raises nDCG strictly |
| `Metrics.RecallBounds` | evals/metrics.py:16-20 | for labels without repetition recall is in [0, 1], and 1 exactly when nothing relevant is missing |
| `Metrics.RetrievedLabels` | evals/harness.py:428-435 | the harness's labels are each kept once, where they first stand, which the bounds need |
| `Metrics.FirstOnlyInOrder` | evals/harness.py:428-435 | the labels stand in the order in which they first appear |

## Left out

- ClaimsAreBacked: says nothing of a resource on which unmarked deletes are under way or died, because the claim is false there (`RemovalExposes`, `NoVectorIngestExposes`); after unsafe refreshes see `RefreshBacksIff`, and for one late write `LateEnrichKeepsIff`.
- StepKeepsInv: needs the step to be safe at the level; what an unsafe refresh leaves is in `RefreshBacksIff`.
- DeltaEqualsFullIff: compares rows, claimed points and their stamps; ages of points and enrichment text are not compared, since a delta run does not rewrite them.
- DeltaEqualsFull: a corollary with hypotheses on the run; `AnyRunDeltaEqualsFullIff` has none.
- SweepIsSafe, MoveKeepsWorld: assume what the grace window stands for, that operations in flight and late writes are young (`Timely`); without any one part of it the claim is false (`OldOperationIsSwept` and the three after it).
- SweptClaimsAreBacked: leaves out runs in which a point put again after its scan is deleted, because the claim is false there (`RevivedPointIsDeleted`), and, as ClaimsAreBacked does, unsafe steps and resources with unmarked deletes under way.
- LostUnclaimedIff: one worker at a time; `CompletesClaimedIff` covers any number.
- AgreementIsInvariant: covers approvals whose rollback works; without one `FailedRollbackDisagrees` applies, and `ApprovedMeansPushed`, `PublishedTextStays` and `StaleCheckoutNeverPublishes` need none. Exceptions from staging, committing or saving, and pushes by others other than in `StaleCheckoutNeverPublishes`, are not modelled.
- RunIngest: one batch after another and one time for all of them; batches in flight at once are covered by the interleavings of `IsDelta`, `IsCutDelta` and `Claims`. Its listing has no resource twice, and its graph writes succeed.
- InterruptedPassIsARun: starts where no operation runs on the source key, and its graph writes succeed.
- MergeFact: which of several equal base edges is strengthened is left open, as the order of the dictionary is not modelled.
- MergeLlmGraphFacts: the final sorting of nodes and edges by id is left out.
- NeighborChunkIds: one resource at a time; the source loops over resources with separate chunk ids.
- MergeCandidates: the seven quota calls are one loop over a list of quotas.
- SplitOversized: starts from the text already cut into lines with their ends kept.
- The graph store: its writes only decide a row's graph status, and retiring shared nodes is not modelled.
- Per-point payload beyond stamp, artifact kind, skill flag and age.
- `reindex_resource` without a registry or source key, and its empty default version.
- Enrichment status columns of a row and `update_resource_enrichment`.
- The early return of a batch without chunks and extractions counts as an aborted operation.
- `start`, `is_live` and `stream_events` of the hub, and more than one session: sessions share no state.
- Code boundary walking in the chunker (`_chunk_code`, `_walk_boundaries`, `_direct_members`): it follows tree-sitter's trees.
- SplitDocComment, ChunkMarkdown: which lines are blank or headings is a parameter, and splitting of oversized sections is `SplitOversized`.
- `precision_at_k`, `mrr`, `mean`, `first_match_rank` and `_match_file`: they would add only easy members.
- Stuck-pending listing and the watch loop of the daemon: they only decide when a reindex or a sweep starts.
- Network clients, embeddings, prompts, HTTP routes, CLI, logging and events.
