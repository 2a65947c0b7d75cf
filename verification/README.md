# A verified model of the personal-memory index

The repository keeps a personal memory: files are cut into chunks, embedded and stored in vector
collections; a watcher indexes changes; a full rebuild can replace the whole index while it is being
searched. This project models that index, its drivers and five smaller state machines around it, and
proves what they keep over every run, with failures anywhere.

## The index

A source's chunks are replaced by writing a new generation beside the old one, verifying it, switching a
registry row and deleting the old generation. A storage call either returns or raises; a deletion that
raises may have removed any part, an addition may have stored any part of its batch even when it
returns. `Replacement` proves that a replacement is nevertheless all or nothing and says exactly when it
commits. Readers see the union of a read-only base and a writable delta, filtered by the registry rows
and by tombstones; `Library` is that union with its steps, `Refinement` and `Views` prove that it
behaves like a plain map from source to last committed write, beside the legacy records not yet replaced,
over every fair run of writes, deletes, rebuilds, commits and aborts from any legacy store. Fair means that
clearing a tombstone, or deleting without one, meets only base records that the source's rows have overtaken,
that a commit does not fail behind its new delta, and that one that succeeds renames both registry tokens
and finds no record above its source's row. `Exceptions` takes the unfair steps in turn (a live image write
that clears a tombstone, for images and for texts; any writes and deletes of a rebuild that clear or record
one; an unstored tombstone; a moved delta; an unrenamed token; residue above a row) and gives the exact
condition under which each shows nothing wrong; it does the same for readers whose registry reads fail.
A rebuild leaves the live collections and rows alone, but its image writes clear live tombstones at once, and
an abort does not bring them back: a source is listed as before if and only if its tombstone ends as it was
or the live collections have nothing of it to list. `Hits` carries what refinement says over to the search.

`VectorStore`, `IndexRegistry`, `GenerationStore`, `Writers` and `CarryOver` are the imperative side: classes
and loops with the fields of the source, proved to be the steps of `Library`. `Verification` is the integrity
check that tells an unchanged file, `Search` the doubling search, `Watcher` the submission barrier, the
automatic retries that pass it, and the epoch check. `Workers` says which of a job's writes its report of
success counts, and when a commit after nothing but successes is fair; `Drivers` has the two rebuild drivers
over the store, the watcher and those jobs, and `Resume` the scan of a rebuild resumed after a restart.

Facts of the code that the model keeps: a failed registry read counts as generation 0; generation 0
means no filter for one source and an empty registry no filter in search; deleting drops the registry
row, so numbering restarts at 1; image writers clear the live tombstone first, also during a rebuild, and the
text writer never does; what was put aside is forgotten before it is replayed, so a submission that raises
loses itself and all behind it; the check for unchanged files looks up the rebuild's rows but reads the live
collections while a rebuild is active;
a commit moves the delta pointer and the epoch before it carries anything over; the claim counter of a job
is never reset; an omitted wiki flag is turned into false before requests are merged; a transient failure is
counted twice, so it is retried once; retries, the health recheck and the loss of a delta queue jobs without
looking at the barrier; a video's text write and a picture's vector write do not count for its report; a union
read of memories or cards raises, because it looks up a variable that does not exist; the refresh-token
exchange does not look at the token again; several frames are asked for their declared count only in the
first record, and a single one not at all.

## Around it

`Access` is the token state machine of remote access. `Annotations` covers normalising, batch edits and undo.
`Chunking` cuts texts, `Wiki` and `Frontmatter` edit pages, `Framing` cuts and assembles commands.
`Text`, `Indexes`, `Storage` and `Options` are shared.

Check everything with `dafny verify dfyconfig.toml`.

## Model

| member | source | states |
|---|---|---|
| Storage.RenderInjective | backend/vector_store.py:1449 | the id texts of chunks, frames and pictures never collide, whatever characters the source paths contain |
| Replacement.NewIdsAreFree | backend/vector_store.py:1445-1476 | the ids of a new generation are free in any collection that has no record of it |
| Replacement.VerifiedIffWhole | backend/vector_store.py:1332-1387 | of a batch of which any part landed, verification accepts exactly the whole one with acceptable documents and vectors |
| Replacement.ReplaceCommitsIff | backend/vector_store.py:1441-1483 | a replacement commits exactly if the input is usable, the purge and the addition worked wholly, the new generation could be read back and the row was stored |
| Replacement.ReplaceIsAtomic | backend/vector_store.py:1421-1494 | with any failure in any step: either the row names the new generation, which is the whole batch, or row and current generation are as they were |
| Replacement.ReplaceKeeps | backend/vector_store.py:1273-1287 | a replacement touches no other source, keeps ids in order and a source within two adjacent generations, and a committed one leaves nothing above its generation |
| Writers.AtomicPrepare | backend/vector_store.py:1273-1287 | splits the source's records into current and stale and deletes exactly the stale ones; the current ids are handed back |
| Writers.DeleteOldGenerationWithRetry | backend/vector_store.py:1390-1408 | what up to three attempts remove of the old generation |
| Writers.VerifyNewGeneration | backend/vector_store.py:1332-1387 | the loop over a read-back generation decides whether it is the expected number of sound records, numbered without gap or repetition when there are several |
| Writers.BuildBatch | backend/vector_store.py:1449-1476 | the landed part of a batch, record by record, under the ids of its indexes |
| Writers.ReplaceRecords | backend/vector_store.py:1443-1490 | the imperative replacement is the specified one, and the row changes exactly if it reports success |
| Indexes.IsRange | backend/vector_store.py:1380-1386 | sorting and comparing with 0..n-1 decides that every number below n occurs |
| Indexes.CoversMeansDistinct | backend/vector_store.py:1380-1386 | such indexes are distinct and in range |
| GenerationStore.Generations.SetGeneration | backend/generation_store.py:99-110 | sets the row of one source in one namespace, or reports the failure and changes nothing |
| GenerationStore.Generations.ClearGeneration | backend/generation_store.py:113-127 | removes one row; a failure is silent |
| GenerationStore.Generations.RenameCollection | backend/generation_store.py:149-169 | the renamed rows override those of the new name and leave the old one; other namespaces are untouched |
| GenerationStore.Generations.ClearCollectionToken | backend/generation_store.py:172-182 | empties one namespace only |
| IndexRegistry.EpochFence | backend/index_registry.py:190-245 | over every run of registry operations the epoch never decreases, and equal epochs mean the same base and delta |
| IndexRegistry.StepKeepsSound | backend/index_registry.py:358-449 | every proper operation keeps the routed generations registered, distinct, present, and neither retired nor building |
| IndexRegistry.RoutedNeverRetired | backend/index_registry.py:524-549 | over every proper run a clean-up removes no routed and no building generation |
| IndexRegistry.SurplusIsTail | backend/index_registry.py:524-549 | what clean-up removes of a newest-first list is what at least `keep` newer retired generations precede |
| IndexRegistry.Registry.CreateDelta | backend/index_registry.py:190-245 | creates and routes a new delta and moves the epoch, or keeps a usable one; a failed transaction leaves only an unregistered directory |
| IndexRegistry.Registry.EnsureDelta | backend/index_registry.py:248-256 | a delta is returned exactly if the routed one is usable or a new one could be made |
| IndexRegistry.Registry.CreateBuildingBase | backend/index_registry.py:401-419 | registers a building base without changing the routing |
| IndexRegistry.Registry.ActivateBase | backend/index_registry.py:422-449 | one transaction: the base becomes healthy and routed with the given delta, formerly routed generations retire unless routed again |
| IndexRegistry.Registry.SetGenerationStatus | backend/index_registry.py:358-385 | changes the status of one registered generation, or nothing when the write fails |
| IndexRegistry.Registry.MarkActiveCorrupted | backend/index_registry.py:388-398 | marks the routed generation of a role, or nothing when the write fails |
| IndexRegistry.Registry.CleanupRetired | backend/index_registry.py:524-549 | removes exactly the retired generations beyond the `keep` newest whose directory can be removed |
| IndexRegistry.Registry.SetTombstone | backend/index_registry.py:278-291 | adds one tombstone, if the write succeeds |
| IndexRegistry.Registry.ClearTombstone | backend/index_registry.py:294-304 | removes one tombstone, if the write succeeds |
| VectorStore.VectorStore.WriteCollection | backend/vector_store.py:854-865 | writes go to the rebuild or to a usable delta; an unusable delta is replaced by an empty one, which readers see |
| VectorStore.VectorStore.AddRecords | backend/vector_store.py:1421-1490 | the writers' effect on the whole store: with readable rows the atomic replacement in the write target, otherwise what unreadable rows or unreachable collections make of it |
| VectorStore.VectorStore.DeleteFile | backend/vector_store.py:2264-2284 | deletion from both write collections, each reached on its own, the registry rows and the tombstone, which is recorded even when no collection can be reached |
| VectorStore.VectorStore.BeginRebuild | backend/vector_store.py:868-898 | is the library's begin step over exactly the rows that clearing the rebuild's namespace left, with empty collections, and leaves the live library as it is; exactly when it succeeds |
| VectorStore.VectorStore.ResumeRebuild | backend/vector_store.py:901-917 | continues with the newest building base and the rows left in its namespace |
| VectorStore.VectorStore.CommitRebuild | backend/vector_store.py:1071-1151 | is the library's commit step; success routes to the building base with everything carried over, failure never moves the base pointer |
| VectorStore.VectorStore.AbortRebuild | backend/vector_store.py:1154-1187 | ends the rebuild and leaves the live library as it is; after a commit it retires nothing, and a failing status write leaves the building row |
| VectorStore.StoreWriteIsAtomic | backend/vector_store.py:1421-1494 | with readable rows, a write that reaches its collection is the library's write step and all or nothing: the row names the whole new generation exactly if the write commits, otherwise row and current generation are as they were |
| VectorStore.VectorStore.ResolveTarget | backend/vector_store.py:336-408 | the routing snapshot of submissions and claims replaces an unusable delta, also during a rebuild |
| VectorStore.VectorStore.DeleteTextChunks | backend/vector_store.py:2243-2260 | deletes the texts only and records no tombstone |
| CarryOver.MergeSides | backend/vector_store.py:996-1030 | merges delta over base by id and fails on an unreadable or misaligned side |
| CarryOver.FilterCards | backend/vector_store.py:1031-1048 | keeps exactly the cards that are opaque or whose version the ledger preserves |
| CarryOver.CarryOverDeltaCollections | backend/vector_store.py:980-1068 | succeeds exactly if every read, ledger query, write and read-back does, and then the target holds the specified records |
| CarryOver.CarriedExactly | backend/vector_store.py:980-1068 | a successful carry loses no memory record, prefers the delta's copy, and revives no card version the ledger rejects |
| CarryOver.SwitchStores | backend/vector_store.py:980-1068 | after the switch the new delta holds exactly what was kept of the old union, so that it overrides the rebuild's records |
| CarryOver.RunKeepsBookIff | backend/vector_store.py:336-441 | over every run of writes, rebuilds, aborts, switches, commits failing behind the new delta and replacements of an unusable delta, what is stored of memories and cards is at every moment a plain account, in which a switch prefers what was stored before, if and only if no such failure or replacement meets a record that its carry does not get to and the base does not hold alike |
| CarryOver.MemoryNeverLostIff | backend/vector_store.py:980-1130 | over such runs a memory record stays stored at every moment if and only if at each such failure or replacement the carry gets to it or the base holds its id; a union read of memories raises whatever is stored |
| CarryOver.FailedSwitchKeepsMemoryIff | backend/vector_store.py:1106-1130 | after a commit that failed behind the new delta, stored memories are as before if and only if the carry got to every record of the old delta that the base does not hold alike |
| CarryOver.RebuildWriteOverriddenIff | backend/vector_store.py:419-441 | a memory record written during the rebuild is stored in the new base, and overridden in the new delta if and only if the old routing held its id |
| Refinement.StepRefines | backend/vector_store.py:1421-1494 | every fair step keeps the index equal to the plain map, live and in the rebuild |
| Refinement.RunRefines | backend/vector_store.py:868-1187 | so does every fair run of writes, deletes, begins, commits and aborts with failures |
| Views.ReadsAgree | backend/vector_store.py:2141-2160 | listing returns exactly the last committed write of an untombstoned source, exactly the legacy records of one neither written nor deleted since, and nothing of a tombstoned, dropped or unknown one |
| Views.LegacyStoreRefines | backend/vector_store.py:1240-1245 | every store of legacy records, and so the empty one, is where runs may start |
| Views.RunShowsLastCommit | backend/vector_store.py:2141-2160 | over every fair run, listing returns what the plain map holds |
| Hits.VisibleIffListed | backend/vector_store.py:1893-1908 | the search keeps a hit exactly if listing takes its record |
| Hits.RunHitsAreCommitted | backend/vector_store.py:1847-1919 | over every fair run, each hit that a search over delta and base returns is a record of the last committed write, or a legacy record, of its untombstoned source |
| Hits.ContentIsVisible | backend/vector_store.py:1847-1919 | and every record the plain map holds of an untombstoned source is visible to the search |
| Views.RebuildIsolated | backend/vector_store.py:846-865 | while a rebuild is active no writes or deletes, however they fail, touch the live collections or rows; the live tombstones become exactly what image writes cleared and deletes recorded |
| Views.RebuildKeepsListingIff | backend/vector_store.py:1514-1817 | over any such writes and deletes a source is listed as before if and only if its tombstone ends as it was or the live collections have nothing of it to list |
| Views.AbortRestores | backend/vector_store.py:868-1187 | begin, over any rows left, any writes and deletes, abort: live collections and rows are exactly as before, and a source is listed as before if and only if its tombstone ends as it was or there is nothing of it to list |
| Views.LastWriteOkMeansNoneAbove | backend/vector_store.py:1411-1486 | a source whose last rebuild write committed has no record above its row |
| Views.CommitShowsRebuilt | backend/vector_store.py:1071-1151 | after begin, over any rows left, any writes and deletes and a fair commit, listing returns of every untombstoned source exactly its last job committed to the rebuild, and nothing of a source without one |
| Workers.LeavesNoneAboveIff | backend/vector_store.py:1411-1578 | a write leaves no record above the row if and only if its calls turned out in one of the listed ways |
| Workers.CommitFairIff | backend/vector_store.py:1071-1130 | after begin, over any rows left, and any writes and deletes, a commit is fair if and only if no write left a record above its row that was not removed since |
| Workers.AllDoneFairIff | backend/watcher.py:984-999 | when every file was indexed once and every job reported done, the commit is fair if and only if each video's text write and each picture's vector write, whose results are ignored, left nothing above its row |
| Workers.AllDoneShows | backend/server.py:3283-3298 | listing then returns of every untombstoned file and kind exactly what its job wrote, if that committed, and nothing otherwise |
| Workers.AllDoneShowsNoOther | backend/server.py:3283-3298 | and nothing of any other file |
| Workers.HalfVideoIsCommitted | backend/watcher.py:984-999 | a video whose text write raised after half its chunks is reported done, and the commit of its rebuild is not fair |
| Workers.HalfVideoIsMixed | backend/watcher.py:984-999 | the next text written to it without any failure is listed mixed with the half batch |
| Workers.LastReportsAreAll | backend/server.py:3283-3298 | if each file's last report says done and each was indexed once, every job reported done |
| Views.RunKeepsAdjacent | backend/vector_store.py:1273-1494 | over every run, fair or not, a write collection holds at most two adjacent generations of a source |
| Exceptions.UnreadableRowKeepsCurrentIff | backend/generation_store.py:76-91 | a purge after a failed registry read keeps the current generation if and only if the source is a legacy one or has no current records |
| Exceptions.FailedFirstWriteListed | backend/vector_store.py:1908 | while the registry is empty, a failed first write is listed exactly as far as its clean-up left records |
| Exceptions.CommittedWriteShownIff | backend/vector_store.py:2264-2284 | a committed write is listed as written if and only if the base has no record of the source at the new generation |
| Exceptions.ReAddedVideoIsMixed | backend/vector_store.py:1498-1578 | deleting and re-adding a video whose frames are in the base lists a mixture, with no failure anywhere |
| Exceptions.MovedDeltaShownIff | backend/vector_store.py:1106-1130 | after a commit that failed behind the new delta, a source is listed as before if and only if its current generation was not in the delta |
| Exceptions.UntombedImagesHiddenIff | backend/vector_store.py:1514-1578 | an image write that clears the tombstone but does not commit still lists none of the source's images if and only if neither delta nor base holds it at its row |
| Exceptions.UntombedTextsHiddenIff | backend/vector_store.py:1817 | and none of its texts, committed or not, if and only if neither holds those at their row |
| Exceptions.HiddenInRebuildIff | backend/vector_store.py:1514-1817 | over any writes and deletes of a rebuild, a deleted source still shows nothing if and only if it has its tombstone at the end or the live collections have nothing of it to list |
| Exceptions.UntombedInRebuildHiddenIff | backend/vector_store.py:1514-1817 | an image write of a rebuild that clears the tombstone, committed or not, shows nothing of the source's images or texts if and only if neither delta nor base holds those at their live row |
| Exceptions.AbortedRebuildListsDeleted | backend/vector_store.py:1154-1187 | a deleted video that is back on disk is indexed in a rebuild without failure, the rebuild is aborted, and the old frames are listed again |
| Exceptions.FailedReadsSameIff | backend/generation_store.py:185-203 | a reader whose row or tombstone read failed lists a source as it should if and only if: of a tombstoned one, the tombstones were read or there is nothing to list; of any other, the rows were read, there are none, all its records are current, or one id was current twice already |
| Exceptions.UnstoredTombstoneHiddenIff | backend/vector_store.py:2264-2284 | after a delete whose tombstone was not stored nothing is listed if and only if the base holds nothing at the row that is left |
| Exceptions.UnrenamedShownIff | backend/generation_store.py:149-169 | after a switch whose token was not renamed, a rebuilt source is listed as rebuilt if and only if its live row equals its row in the rebuild |
| Exceptions.ResidueMixesIff | backend/vector_store.py:1126-1130 | after a switch that found records above a row, the source's next committed write is listed as written if and only if none of them is of the generation it gets |
| Verification.ReadEffective | backend/vector_store.py:1591-1620 | the read fails exactly if one collection does, and otherwise holds the records of all of them, none dropped |
| Verification.VerifyTextChunks | backend/vector_store.py:1623-1683 | the answer for every reading: complete with its hash, mismatched, not indexed, damaged or unreadable |
| Verification.VerifyImageRecord | backend/vector_store.py:1686-1743 | the same for image records |
| Verification.GetSourceHash | backend/vector_store.py:1780-1805 | a hash is returned if and only if the text is complete, or absent with complete images |
| Verification.TextWholeIffOnce | backend/vector_store.py:1623-1683 | among all lists drawn from one write, in any order and multiplicity, exactly those with every chunk once are accepted |
| Verification.FramesWholeIff | backend/vector_store.py:1686-1743 | of video frames also any single surviving frame is accepted |
| Verification.MixtureNeverWhole | backend/vector_store.py:1623-1683 | a whole write together with records of another one is never accepted |
| Verification.RunReadsBackHash | backend/vector_store.py:1780-1805 | over every fair run, the hash read for a text source is that of its last committed write |
| Resume.SkipsIff | backend/watcher.py:1314-1325 | in an active rebuild a file with a committed live text and no stale records is skipped as unchanged if and only if the rebuild has no row of it, or the live one, and its fingerprint is that of the live text; with another row only its images are asked |
| Resume.UntouchedShownIff | backend/server.py:610-645 | a file on which the resumed rebuild does no more work is listed after a fair commit as the rebuild had it, so nothing of it if and only if no job of it was committed there |
| Resume.SkippedFileIsLost | backend/server.py:610-645 | so a file that is whole in the live index but had no row in the rebuild is skipped as done, and is no longer listed after the commit |
| Search.SortedIsStable | backend/vector_store.py:1916 | the sort orders by distance, keeps every hit, and keeps the order of hits at the same distance |
| Search.QueryCurrentGeneration | backend/vector_store.py:1847-1919 | the doubling loop ends, either with enough results or with everything fetched, and returns the n nearest gathered |
| Search.WiderGathersMore | backend/vector_store.py:1874-1915 | a wider fetch gathers at least the ids of a narrower one |
| Search.ResultSound | backend/vector_store.py:1874-1919 | the result is distinct by id, visible, nearest first, and counts the smaller of n and the number of visible ids of the readable collections |
| Search.MissedIsBeyondWindow | backend/vector_store.py:1874-1919 | a visible record inside the window of its collection is returned or outdone by n results at least as near |
| Search.ExactForOneCollection | backend/vector_store.py:1874-1919 | over one collection the result is the first n of all its visible records |
| Search.TopIff | backend/vector_store.py:1916-1919 | over several collections the result is a true top n if and only if every visible record beyond all windows is no nearer than n visible records inside them |
| Search.TopWhenWindowsSuffice | backend/vector_store.py:1916-1919 | it is one whenever each window is exhausted or holds n visible records itself |
| Search.TopWhenExhausted | backend/vector_store.py:1874-1919 | with everything fetched it is a true top n |
| Search.TwoCollectionsInexact | backend/vector_store.py:1916-1919 | a case of two collections in which a nearer current record is missed |
| Watcher.Watcher.SubmitIndex | backend/watcher.py:253-311 | puts a request aside while another session's barrier is up, else queues it unless the source is busy; where it raises, at most the strategy is left behind |
| Watcher.Watcher.BeginRebuildBarrier | backend/watcher.py:333-348 | raises the barrier unless one is up, and reports the sources remembered as running |
| Watcher.Watcher.FinishRebuildBarrier | backend/watcher.py:351-368 | lowers its own session's barrier, empties what was put aside, and replays it in order up to the first submission that raises; it raises exactly if one does |
| Watcher.Watcher.RunIndexJob | backend/watcher.py:389-431 | a claimed job goes on, is queued again for the routed target, or is given up |
| Watcher.DeferredIsSummary | backend/watcher.py:284-293 | for any sequence of requests: everything from outside the session is kept, with force the OR of all, the last given strategy, and the last request's wiki flag |
| Watcher.FinishReplays | backend/watcher.py:351-368 | a source put aside is queued with exactly what was kept if and only if its file exists, the gates are open, it is not busy and no submission up to its own raises; otherwise its row stays and the request is gone |
| Watcher.RebuildReplays | backend/watcher.py:284-368 | barrier up, any steps, barrier down: one queued job sums up all requests of a source, under exactly that condition |
| Watcher.Watcher.RequeueRecoverableFailures | backend/mindos/stores/job_store.py:427-449 | queues exactly the due jobs that may be revived, without looking at the barrier; only the recheck tells the cache |
| Watcher.ReviveKeepsFenceIff | backend/watcher.py:608-618 | a revival keeps the fence if and only if the job revived belongs to the session |
| Watcher.FenceHoldsIff | backend/watcher.py:284-305 | over every sound run, only the session's jobs are queued or running at every moment if and only if no job of another session is revived |
| Watcher.FencesIffSealed | backend/watcher.py:284-305 | over all sound runs that holds if and only if, when the barrier goes up, every job that is unfinished or can be revived belongs to the session |
| Watcher.QuietBarrierFencesIff | backend/watcher.py:333-348 | a barrier that reports no running job fences if and only if no other job is hidden from its report or can be revived |
| Watcher.HiddenWasRevived | backend/watcher.py:649-664 | only revivals that the cache is not told of hide jobs from the report |
| Watcher.QuietBarrierFences | backend/watcher.py:333-348 | after a run without those, a quiet report and no job to revive are enough |
| Watcher.TransientRetriedOnce | backend/watcher.py:519-532 | a job that fails transiently may be retried by the sweeper, and after failing so again it may not, since each failure is counted twice |
| Watcher.QuietYetQueued | backend/watcher.py:608-618 | a failed job retried by the sweeper: the barrier reports no running job, and a job from outside the session is queued |
| Watcher.ClaimKeepsFenceIff | backend/watcher.py:396-408 | a worker keeps the fence if and only if there is a job to claim or the source is busy |
| Watcher.JobsRunOnRoutedDelta | backend/watcher.py:409-431 | over every run with routing changes, a job goes on only if it was queued for the routed delta, and a job queued again does |
| Watcher.AttemptsCountClaims | backend/mindos/stores/job_store.py:328-363 | the attempts of a source count every claim of every job it ever had |
| Watcher.StaleJobRequeuedIff | backend/watcher.py:414-429 | a job whose epoch has passed is queued again if and only if its source was claimed fewer than twice before |
| Watcher.StaleFailureStaysActive | backend/watcher.py:418-422 | a job given up that way stays running in the cache, so barriers report it until the source is submitted or worked on again |
| Drivers.Maintenance.ScanExisting | backend/watcher.py:1334-1350 | if nothing was pending already, every file's job is the session's and queued |
| Drivers.Maintenance.Wait | backend/server.py:3261-3275 | the wait ends settled exactly if no candidate is pending; the rebuild and the live tombstones are then what the logged jobs and deletions made of them, and live collections and rows are as before, but for an unusable delta replaced |
| Drivers.Maintenance.IndexFile | backend/watcher.py:1130-1269 | a job makes its writes in order and answers as its report rule says |
| Drivers.Maintenance.Commit | backend/server.py:3283-3298 | requires every candidate to be done; success makes the live index the rebuilt one |
| Drivers.Maintenance.Lower | backend/watcher.py:351-368 | lowers the barrier and replays: the first submission to come so far looks the routing up, which may replace an unusable delta, and if that fails every submission that needs it raises |
| Drivers.CommittedFairIff | backend/server.py:3283-3298 | what a driver committed after indexing every file once has no record above a row if and only if each ignored write left none |
| Drivers.Maintenance.Reindex | backend/server.py:3211-3312 | whatever raises: barrier released and nothing left aside, also when the replay raises, rebuild ended, the base moved only by a commit that went through, also when an exception after it is answered with an abort; what was committed is what the logged jobs made of the rebuild, each file's last one reported done, and so are the live tombstones in every case; only the already-pending exit, or a failing handler, leaves the session running |
| Drivers.Maintenance.MigrationCommit | backend/server.py:464-547 | the barrier stays up if and only if recording the outcome or reading the jobs raises, and only the latter leaves the rebuild active; a replay that raises finds the barrier down |
| Access.AccessStore.SaveOauthClient | backend/mcp_access.py:329-379 | registers a client and lifts its revocation, unless too many registrations are pending |
| Access.AccessStore.ApproveAuthorizationRequest | backend/mcp_access.py:434-474 | turns an open request into one code |
| Access.AccessStore.ExchangeAuthorizationCode | backend/mcp_access.py:851-864 | uses the code up before issuing a pair with its scopes |
| Access.AccessStore.ExchangeRefreshToken | backend/mcp_access.py:603-617 | loads, revokes the old pair, then issues the new one |
| Access.AccessStore.CreateBasicToken | backend/mcp_access.py:636-665 | makes the shared key unless a live one exists |
| Access.AccessStore.RotateBasicToken | backend/mcp_access.py:667-687 | revokes the shared key's tokens and makes a new one |
| Access.AccessStore.RotateCompatClient | backend/mcp_access.py:709-724 | the same for a compatibility client |
| Access.AccessStore.RevokeClient | backend/mcp_access.py:726-736 | revokes a client with its tokens and drops its requests and codes |
| Access.AccessStore.LoadAccessToken | backend/mcp_access.py:575-601 | accepts exactly usable bearer tokens whose client kind fits the mode |
| Access.RevokedNeverLoads | backend/mcp_access.py:558-573 | over every run a revoked token is never loaded again |
| Access.RevokedClientStaysOut | backend/mcp_access.py:329-379 | registering a revoked client again does not bring back any token it had |
| Access.CodeExchangedOnce | backend/mcp_access.py:851-864 | over every run a code is exchanged at most once (section 4.1.2 of RFC 6749) |
| Access.RunKeepsKeys | backend/mcp_access.py:636-736 | over every run tokens fit their clients, a revoked client has no live token, and the basic and each compatibility client have at most one |
| Access.AcceptedFitsMode | backend/mcp_access.py:583-587 | in the basic mode at most one token is accepted, the shared key; in the advanced mode never the shared key |
| Access.OneLivePairPerCode | backend/mcp_access.py:873-886 | over every run the live tokens descending from one code are of one pair, at most one of each kind (section 6 of RFC 6749) |
| Access.RefreshedOnce | backend/mcp_access.py:873-886 | after a refresh both tokens of the old pair are dead for good |
| Access.LoadedOnceExchangedTwice | backend/mcp_access.py:873-886 | with loading and exchanging apart, one loaded token exchanged twice leaves two live refresh tokens |
| Access.LateExchangeKeepsFamiliesIff | backend/mcp_access.py:873-886 | an exchange long after the loading keeps the tokens of a code in one pair if and only if no other pair of the code is live then |
| Access.LateRunKeepsFamiliesIff | backend/mcp_access.py:873-886 | over every run with loading and exchanging apart that holds at every moment if and only if every exchange finds no other live pair |
| Access.LateExchangeKeepsFitsIff | backend/mcp_access.py:873-886 | such an exchange gives no live token to a revoked client if and only if the client is live then |
| Access.LateRunKeepsKeysIff | backend/mcp_access.py:726-736 | over every such run tokens fit their clients and revoked clients have none live at every moment if and only if every exchange finds its client live |
| Access.LateExchangeOutlivesRevocation | backend/mcp_access.py:726-736 | a token loaded before its client was revoked and exchanged after it gives a live token, accepted once the client registers again |
| Annotations.NormalizeTags | backend/annotations.py:45-57 | the loop with its early end computes the normal tags |
| Annotations.NormalSettles | backend/annotations.py:60-73 | a second normalisation is a fixpoint |
| Annotations.NormalNotIdempotent | backend/annotations.py:60-73 | the first one is not: a caption cut behind a space |
| Annotations.ReturnedIsReadIff | backend/annotations.py:291-306 | what setting an annotation returns is what will be read if and only if none of its tags, its caption or its group ends in white space |
| Annotations.NormalSettledIff | backend/annotations.py:60-73 | a normalised annotation is settled under the same condition |
| Annotations.CleanSettledIff | backend/annotations.py:60-73 | for one text: its stripped form fits, or is not cut right behind white space |
| Annotations.AnnotationStore.SetAnnotation | backend/annotations.py:291-306 | merges the patch over what is read, or over nothing, and writes it |
| Annotations.AnnotationStore.BatchSetAnnotations | backend/annotations.py:309-374 | edits each path once and keeps what it read before; a dry run answers the same and changes nothing |
| Annotations.AnnotationStore.UndoAudit | backend/annotations.py:489-515 | restores what an active batch kept and marks it undone |
| Annotations.BatchedView | backend/annotations.py:309-374 | a batch changes exactly its paths, each as if it were alone |
| Annotations.BatchThenUndo | backend/annotations.py:489-515 | a batch, any other operations, its undo: the batch's paths read as before it, all others as just before the undo, and it cannot be undone again |
| Annotations.RunKeepsStored | backend/annotations.py:215-231 | over every run the table holds only annotations that were normalised when written |
| Annotations.UndoneForGood | backend/annotations.py:495-500 | an undone entry stays undone over every run |
| Chunking.SplitLong | backend/parser.py:607-628 | the loop gathers sentences as specified |
| Chunking.PiecesSound | backend/parser.py:607-628 | the pieces are non-empty, at most `size` long, and together the paragraph |
| Chunking.ChunkText | backend/parser.py:572-604 | the loop gathers units as specified |
| Chunking.ChunksBounded | backend/parser.py:592-604 | every chunk is non-empty and at most size + overlap + 1 characters |
| Chunking.ChunksRecoverUnits | backend/parser.py:592-604 | the chunks without their overlaps are the units joined by newlines |
| Chunking.ChunksLoseNothing | backend/parser.py:572-604 | for every text they give back all its characters that are not white space, in order |
| Wiki.OutsideKept | backend/wiki_store.py:294-300 | with markers in order or none, the text outside the block is kept up to white space before it |
| Wiki.StableIff | backend/wiki_store.py:294-300 | replacing twice is replacing once with the second text if and only if the markers are in order or absent |
| Wiki.UnstableStartOnly | backend/wiki_store.py:294-300 | with a start marker only, the second replacement loses text |
| Wiki.UnstableEndFirst | backend/wiki_store.py:294-300 | with an end marker first, every replacement adds a block |
| Frontmatter.PrintFrontmatter | backend/wiki_store.py:222-237 | the loop prints the entries that have a value |
| Frontmatter.ParseFrontmatter | backend/wiki_store.py:240-268 | the loop parses line by line, a later entry replacing an earlier one in place |
| Frontmatter.PrintThenParse | backend/wiki_store.py:222-268 | printing and parsing give back the metadata and the body behind one newline |
| Frontmatter.RoundTripIff | backend/wiki_store.py:222-268 | for good keys they do so if and only if no JSON text holds a line boundary |
| Framing.Crc8Hex | frontend/command-framing.js:24-32 | the checksum over pairs as the platform's number parsing reads them |
| Framing.FrameCommand | frontend/command-framing.js:38-57 | accepts exactly framable commands within the frame limit and numbers and checks their frames |
| Framing.AssembleFrames | frontend/command-framing.js:63-90 | returns the filed payloads in order exactly if every frame checks and none is missing |
| Framing.AssemblesIffAllDelivered | frontend/command-framing.js:63-90 | frames of one command, in any order and multiplicity, assemble to it if and only if none is missing and there are at most 64 |
| Framing.ChangeUnnoticedIff | frontend/command-framing.js:24-32 | a changed byte goes unnoticed if and only if its value is the same modulo 256 |
| Framing.HexBytesDiffer | frontend/command-framing.js:24-32 | between hexadecimal bytes that means the byte is the same |
| Framing.DamagedDeliveryRejected | frontend/command-framing.js:63-90 | a delivery in which one byte of one frame is changed to another pair of hexadecimal digits never assembles, whatever else it holds |
| Framing.ChecksumsSum | frontend/command-framing.js:38-57 | the frames' checksums sum, modulo 256, to the command's |

## Left out

- Chroma, HNSW, SQLite and the file system: a collection is a finite map, a query a list of hits nearest first, a table a map, a call one step.
- Embedding, OCR, speech recognition, reranking, document parsing, language-model calls, HTTP and the desktop shell.
- Record ids are kept in structured form; `Storage.RenderInjective` says that their texts never collide.
- The health gate (corruption detection, write blocking, the check after a commit) and lock timing: public calls are serialised.
- Frame picture directories and their clean-up, per-chunk metadata beyond index, count and hash, the lexical and document caches.
- Refinement.RunRefines: covers fair runs only; what each unfair step shows is in `Exceptions`, but runs that go on from there are not followed. Replacing an unusable delta loses sight of what it held, as a moved delta does.
- Refinement.StepRefines: the same, for one step.
- VectorStore.VectorStore.DeleteFile: a deletion that raises has removed nothing; partial deletion is modelled in the writers only.
- Per-source reads during a rebuild other than the check for unchanged files, which is in `Resume`; `Verification.RunReadsBackHash` speaks of the live rows.
- Resume.SkipsIff: takes files without stale live records and without a tombstone, which the check does not ask for.
- `verify_source_index` with its tombstone and chunk-count checks.
- The legacy collection switch, which the code says must not be called.
- Search filters by file type, rounding of distances, and neighbours that the approximate index misses.
- Watcher.Watcher.RunIndexJob: models the head of a worker; what a job then writes and reports is `Workers`, and its progress reports are `SetJobState`.
- Watcher.FenceHoldsIff: speaks of runs in which workers have a job to claim; `Watcher.ClaimKeepsFenceIff` gives the other case.
- Restart recovery of jobs, the times at which retries fall due, and the start-up decision whether to migrate.
- Drivers.Maintenance.Reindex: what other threads do is given as a finite sequence between two looks at the jobs, a deadline is the end of that sequence, and the registry reads of the jobs succeed.
- Workers.AllDoneFairIff: takes rebuilds that begin without rows and in which every file is indexed once; `Workers.CommitFairIff` covers left-over rows, repeated jobs and deletions.
- CarryOver.RunKeepsBookIff: leaves out deletions of memory records.
- Cryptography, hashing, redirect validation, scope negotiation with a resource, the audit log and labels in remote access; tokens are fresh opaque values and client ids are typed by their kind.
- `rename_group`, the group registry, trash and the migration of older files in annotations.
- JSON encoding and the fallback for values that are not JSON in the page metadata; numbers without a JSON form, such as infinity.
- Negative chunk sizes and overlaps: the source raises for a size of zero, which the model requires to be positive.
