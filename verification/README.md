# bsearch: a verified model

bsearch is a local search daemon. It walks the configured roots, keeps a SQLite catalog in step with the
files it finds, cuts each distinct content into chunks, embeds them, and answers queries from the vectors.
This project models the parts of it whose correctness is spread over several functions, and proves what
they keep:

- **Chunker** (`Encoding`, `Blocks`, `Sections`, `Chunker`, `ChunkerProofs`, `Chunking`, `Filling`, `Embedding`): bytes
  are decoded, scanned into blocks, grouped under headings, packed with overlap, split at a ceiling and
  merged. The results are about the whole output: order, coverage, valid text, and the byte budget the
  embedder enforces.
- **Discovery** (`Discovery`, `Scanners`, `Reconcile`, `Mounts`, `Rebuild`, `Paths`): change detection with
  its write buffer, the deletion pass and its remembered mount points, and the theorem that compares an
  incremental scan with a rebuild.
- **Catalog** (`Catalog`, `CatalogProofs`, `Sweep`, `Stores`): the tables as maps, each transaction a function
  on them, a class whose methods are those functions, the invariant of every reachable state, and the orphan
  sweep under interference.
- **Indexing** (`Queue`, `Pipeline`, `Indexers`, `Schedulers`): the claim, one content's passage through the
  pipeline, the two stale sweeps, the retry budget and the drain. `Pipeline` is a machine over the tables
  whose steps are the transactions of every process that ever ran, crashes included, and of another process
  that breaks the single-writer rule between contents or during a network call. The classes carry a ghost run
  of that machine from a new database on, so what is proved of all runs holds of them.
- **Handoff** (`Handoff`): filesystem events from the FSEvents adapter to the scheduler, one critical section
  per step, under every interleaving.
- **Index handle** (`Handles`): the reference-counted database handle behind concurrent requests.
- **Query assembly** (`Queue.Places`, `Assembly`, `Service`): nearest chunks, fanned out per path and collapsed
  per content, with the over-fetch and its retry.

Conventions: paths, hashes and texts are byte strings; a content hash is an abstract non-empty string, equal
exactly when the bytes are; vectors are sequences of reals and a distance is any function of a vector; a
method argument called a fault says that a store write does not land. Clocks, the filesystem, the mount
table, event batches and the endpoint's answers are parameters. Where code changes state step by step there
is a method over mutable fields or a loop, tied by its `ensures` to a function, and the theorems are about
the function.

Where the code does not do what one might expect of it, that is stated as a result:

- A catalogued directory replaced by a file of the same name keeps its old rows for ever, because stat answers
  ENOTDIR and only ENOENT deletes (`Rebuild.ReplacedDirectoryKeepsItsRows`). `Rebuild.IncrementalEqualsRebuild`
  says exactly when an incremental scan does equal a rebuild.
- UTF-16LE text whose first character is U+0000 is refused, because its spelling starts with the UTF-32
  byte-order mark (`Encoding.EverySpellingNormalizes`).
- Template validation does not promise the input budget: a template with two `{d}` passes it, and a plain
  paragraph of 3744 letters is then refused (`Embedding.RepeatedPassageOverflows`); under any one-passage
  template some chunk below a heading path longer than 4*ceiling-64 bytes is refused
  (`Embedding.LongPathOverflows`). `Embedding.GuardIsSafeIffLargestFits` is the exact condition, over the chunks
  the chunker emits.
- A failed row can stand under stale stage versions after both sweeps, because giving a content up writes its
  state and not its versions. `Pipeline.StaleFailureIffUnstamped` says exactly which: those this process gave up
  on after another process, while the embedding was awaited or the endpoint probed again, had swept the row away
  or chunked it afresh under other stages, and nobody had chunked it under this process's stages since. Both
  inputs are exhibited (`Pipeline.SweptThenFailedStale`, `Pipeline.RechunkedThenFailedStale`) and reached from a
  new database (`Pipeline.StaleFailureReached`). Indexed rows are never stale.
- `underAny` answers true for "/" when "/" is in the set, though nothing lies strictly beneath itself; the
  range delete spares the one spelling `dir/` (`Paths.UnderAny`, `Paths.RangeIsWithin`).

## Model

| member | source | states |
|---|---|---|
| `Paths.RangeIsWithin` | internal/adapters/sqlite/store.go:142-174 | the range predicate `path = dir OR (dir/ < path < dir0)` selects exactly what Within selects, on every byte string, but for the spelling `dir/` |
| `Paths.RangeIsWithinOnCleaned` | internal/adapters/sqlite/store.go:142-174 | on cleaned paths the range predicate is Within, with no exception |
| `Paths.AncestorsAreDirs` | internal/pathutil/pathutil.go:20-28 | the directories strictly above a path are its parent and the directories strictly above that |
| `Paths.UnderAny` | internal/discovery/deleted.go:510-524 | the ancestor walk answers whether some member of the set lies strictly above the path; at "/" it answers whether "/" is a member |
| `Paths.NormalizeRoots` | internal/discovery/discovery.go:881-897 | the loop returns exactly the cleaned roots no other cleaned root contains, an antichain covering the same paths |
| `Paths.CleanIsCleaned` | internal/discovery/discovery.go:629-632 | an absolute path, cleaned, has no empty component and no trailing slash |
| `Paths.CleanTwice` | internal/discovery/discovery.go:629-632 | cleaning a cleaned path changes nothing, absolute or relative |
| `Paths.AntichainCoverIsOutermost` | internal/discovery/discovery.go:881-897 | any antichain of configured roots that covers them is that set |
| `Encoding.DecodeUTF16` | internal/chunker/encoding.go:43-66 | the unit loop accepts and returns what the strict decoding function does |
| `Encoding.StrictDecodingRoundTrip` | internal/chunker/encoding.go:43-66 | exactly the even-length, well-paired inputs decode (RFC 2781 sections 2.1 and 2.2); the result is valid UTF-8 (RFC 3629 section 3), re-encodes to the same bytes, and has no replacement rune the input did not |
| `Encoding.EveryTextDecodes` | internal/chunker/encoding.go:43-66 | every sequence of scalars has a UTF-16 form in either order, and it decodes back to it |
| `Encoding.Normalize` | internal/chunker/encoding.go:19-37 | the byte-order-mark dispatch |
| `Encoding.NormalizedIsValid` | internal/chunker/encoding.go:19-37 | whatever is accepted comes out as valid UTF-8 |
| `Encoding.EverySpellingNormalizes` | internal/chunker/encoding.go:19-37 | the marked spellings of one text all normalize to it, but for a little-endian one that starts with U+0000, which is refused; so does the unmarked one, of a text that does not itself start with U+FEFF |
| `Blocks.SplitLines` | internal/chunker/blocks.go:30-44 | the index loop returns the lines of the text |
| `Blocks.LinesTile` | internal/chunker/blocks.go:30-44 | those lines abut, cover every byte once, and each but the last ends in a newline |
| `Blocks.SkipFrontmatter` | internal/chunker/blocks.go:137-150 | content starts past the first closing fence of an opening frontmatter fence, or at the first line |
| `Blocks.ScanBlocks` | internal/chunker/blocks.go:57-130 | the scan loop with its paragraph start returns the blocks the recursive scan gives |
| `Blocks.ScanCoversEveryLine` | internal/chunker/blocks.go:57-150 | blocks are disjoint runs of whole lines in source order, past the frontmatter, and every later line that is not blank is in one |
| `Sections.SectionsOf` | internal/chunker/chunker.go:114-151 | the heading-stack loop returns the sections the recursive definition gives |
| `Sections.SectionsTheorem` | internal/chunker/chunker.go:114-151 | every content block is in exactly one section, in order, and the section is named after the headings in force where the block stands |
| `Chunker.OverlapSuffix` | internal/chunker/chunker.go:237-244 | the seed of the next group is the longest trailing run, short of the whole group, that fits the overlap |
| `Chunker.PackBlocks` | internal/chunker/chunker.go:174-230 | the packing loop with its seeded current group returns what the recursive packing gives |
| `Chunker.HardSplit` | internal/chunker/chunker.go:251-279 | the split loop, which ends for every limit of at least 4, returns the pieces of the recursive split |
| `Chunker.PiecesAreSplit` | internal/chunker/chunker.go:251-279 | the pieces are non-empty, contiguous, partition the span and are each at most the limit; each but the last is cut after the last blank line of its window, without one after the last newline, without one after the last space, without any before the last rune start |
| `ChunkerProofs.HardSplitKeepsRunes` | internal/chunker/chunker.go:251-279 | on valid UTF-8 between rune boundaries every piece is valid UTF-8 |
| `Chunker.ChunkSection` | internal/chunker/chunker.go:174-230 | one section's candidates, whole, packed or split, are those of the specification |
| `ChunkerProofs.SectionTheorem` | internal/chunker/chunker.go:174-230 | a section's candidates climb in start and end, overlap by at most the bound, fit the ceiling, and cover each of its blocks |
| `Chunker.MergeTiny` | internal/chunker/chunker.go:289-338 | the in-place merge loop returns what the recursive fold gives |
| `Chunking.MergeKeeps` | internal/chunker/chunker.go:289-338 | merging keeps order, coverage, bounds and every chunk that may not merge; what it makes is between the minimum and maximum size |
| `Chunking.Chunk` | internal/chunker/chunker.go:58-94 | the whole chunker, loop by loop, is the specification |
| `Chunking.ChunksInOrderAndComplete` | internal/chunker/chunker.go:58-246 | for every text: ordinals count up, each chunk is its own byte span past the frontmatter, starts and ends both strictly climb, neighbours overlap by at most 256 bytes, every byte of every non-heading block is in a chunk |
| `Chunking.ChunksFitAndStayValid` | internal/chunker/chunker.go:159-170 | under a ceiling of at least 80 tokens every chunk is at most max(64, 4*ceiling-256-len(path)) bytes; chunks of valid text are valid text |
| `Chunking.OnlySingleBlocksAreSplit` | internal/chunker/chunker.go:58-94 | every warning names a chunk that is a piece of one content block larger than its section's ceiling |
| `Embedding.ComposedLengthIsExact` | internal/domain/embedding.go:122-144 | the length of a composed passage, for any template, in terms of its placeholders |
| `Embedding.EveryChunkPassesTheGuard` | internal/adapters/openai/embedder.go:117-131 | under a validated template with one {d} and at most one {t}, every chunk of every text fits the embedder's guard, for heading paths of at most 4*ceiling-320 bytes |
| `Embedding.GuardIsSafeIffLargestFits` | internal/domain/embedding.go:69-92 | under a validated spec every chunk the chunker emits, of any text, below a heading path of n bytes passes the guard if and only if a chunk that fills its budget composes to no more than the guard |
| `Filling.PageIsOneChunk` | internal/chunker/chunker.go:58-94 | one paragraph of letters as long as its section's ceiling, under one heading of letters or none, is one chunk, whole |
| `Embedding.RepeatedPassageOverflows` | internal/domain/embedding.go:69-92 | a template with two {d} passes validation, and the one chunk of a 3744-letter paragraph is refused |
| `Embedding.LongPathOverflows` | internal/domain/embedding.go:122-144 | under any validated one-passage template, some chunk below a heading path longer than 4*ceiling-64 bytes is refused |
| `Stores.Store.constructor` | internal/adapters/sqlite/migrate.go:28-77 | a new database is empty, with no generation current and ids starting at 1 |
| `Stores.Store.UpsertDocuments` | internal/adapters/sqlite/store.go:62-107 | one transaction: each row replaced, its content created at discovered when new, marked recent when unfinished, untouched when terminal |
| `Stores.Store.ListPaths` | internal/adapters/sqlite/store.go:262-281 | a page: sorted, past the cursor, complete up to its last entry, and complete when short |
| `Stores.Store.DeleteByPathPrefix` | internal/adapters/sqlite/store.go:142-174 | removes the row at dir and every row within it, counts them, and refuses a prefix that trims to nothing |
| `Stores.Store.DeleteByPaths` | internal/adapters/sqlite/store.go:195-258 | chunk by chunk; whatever lands is what is counted, also on failure; an empty path removes nothing |
| `Stores.Store.StoreChunks` | internal/adapters/sqlite/store.go:334-389 | old chunks and their vectors in every generation go, new rows get fresh ids in order, the state and versions are written, all or nothing |
| `Stores.Store.MarkFailed` | internal/adapters/sqlite/store.go:409-436 | failed content loses its chunks and their vectors in the same transaction |
| `Stores.Store.UpdateContentState` | internal/adapters/sqlite/store.go:393-398 | only the state and the clock change, and only if the content is there |
| `Stores.Store.Reschedule` | internal/adapters/sqlite/queue.go:148-153 | only the attempt count, the due time and the clock change; the state does not |
| `Stores.Store.ResetStale` | internal/adapters/sqlite/queue.go:175-221 | exactly the terminal rows whose versions miss or differ from a current one go back to discovered with no attempts, and they are what is counted; nothing else changes |
| `Stores.Store.DeleteVectors` | internal/adapters/sqlite/store.go:708-721 | the vectors go from every generation, not only the current one |
| `Stores.Store.EnsureVecTable` | internal/adapters/sqlite/vec.go:129-197 | the generation with this identity becomes current with its ceiling refreshed, or a new empty one is minted past every existing number |
| `Stores.Store.FindGeneration` | internal/adapters/sqlite/vec.go:129-197 | the scan of the generations finds a match if there is one, and the next number |
| `Stores.Store.UpsertVectors` | internal/adapters/sqlite/vec.go:263-326 | every id live and every width right, or nothing is written; superseded is told apart from a broken store |
| `CatalogProofs.StepKeepsInv` | internal/adapters/sqlite/migrate.go:36-77 | every transaction keeps the catalog invariant |
| `CatalogProofs.EveryReachableStateIsConsistent` | internal/adapters/sqlite/store.go:334-436 | in every reachable state documents and chunks resolve to content, every vector in every generation belongs to a live chunk and has its generation's width, no two generations share an identity, and failed content has no chunks |
| `CatalogProofs.VectorsReachTheirChunksOrNothing` | internal/adapters/sqlite/vec.go:263-326 | for ids an earlier StoreChunks returned, after any run of transactions, writing vectors puts each on exactly the chunk its id was given for, or reports superseded and changes nothing |
| `Stores.Store.SweepOrphans` | internal/adapters/sqlite/store.go:578-651 | the batched sweep, with other writers' transactions between each batch's read and its transaction, and with a read or a write that may fail, is the recursive sweep, reports what it removed also when it fails, and ends |
| `Sweep.OrphansGo` | internal/adapters/sqlite/store.go:578-651 | an in-scope orphan that no concurrent transaction names is gone when a sweep whose writes land ends |
| `Sweep.ReferencedStays` | internal/adapters/sqlite/store.go:594-651 | a content that a row references when any batch's transaction begins, be it only since that batch's candidates were read, keeps its state, chunks and vectors to the end of the sweep, if nothing later touches that row |
| `Sweep.SweepCountsExactly` | internal/adapters/sqlite/store.go:578-651 | rows before, plus those others create, minus the count returned, are the rows after, also when a write fails part-way; and the catalog invariant holds, so no vector dangles |
| `Sweep.UndisturbedSweep` | internal/adapters/sqlite/store.go:578-651 | undisturbed and with its writes landing, the paged sweep is one removal of every in-scope orphan |
| `Reconcile.Reconciler.JudgeRow` | internal/discovery/deleted.go:263-319 | the first guard that answers wins: scope, then coverage, then stat, then whether any volume evidence exists |
| `Reconcile.Reconciler.FlushDeletes` | internal/discovery/deleted.go:399-412 | what is counted is what went |
| `Reconcile.Reconciler.DeclineAll` | internal/discovery/deleted.go:376-393 | with nothing in scope every row is counted once and none is touched |
| `Reconcile.Reconciler.LearnMounts` | internal/discovery/deleted.go:430-445 | the memory becomes the sorted union of what was remembered and what is mounted in scope, written when that changes it or nothing was ever written |
| `Reconcile.Reconciler.ForgetEmptyMounts` | internal/discovery/deleted.go:454-469 | the memory keeps what is mounted or still above a row |
| `Reconcile.Reconciler.Enumerate` | internal/discovery/deleted.go:225-337 | paging while deleting: rows gone are rows counted however it ends, and when it completes every row was judged once |
| `Reconcile.Reconciler.ReconcileDeleted` | internal/discovery/deleted.go:77-370 | rows before minus rows after equals Deleted plus Pruned however the pass ends; on completion kept, Deleted, Pruned, Ignored and Unverified sum to the starting count and the survivors are exactly the rows not judged gone; the memory is what learning, then forgetting, leaves |
| `Reconcile.VerdictsPartition` | internal/discovery/deleted.go:263-319 | every row has one verdict |
| `Mounts.ReconcilePass` | internal/discovery/deleted.go:77-370 | every pass is a step of the runs below |
| `Mounts.LearningRecords` | internal/discovery/deleted.go:430-445 | a mount in scope and visible on a pass that can read and write is remembered by it |
| `Mounts.PassKeeps` | internal/discovery/deleted.go:454-469 | a pass forgets a mount only when it is neither mounted nor above any row |
| `Mounts.MountProtection` | internal/discovery/deleted.go:102-181 | over whole runs: a remembered mount that is mounted or above a row at each pass stays remembered, and on a pass whose table does not show it no in-scope row strictly beneath it is deleted for ENOENT |
| `Mounts.BlindTableDeletesNothing` | internal/discovery/deleted.go:120-131 | with no usable mount table nothing strictly beneath a root is deleted |
| `Mounts.LearnThenForgetIsFixpoint` | internal/discovery/deleted.go:430-469 | with mounts, roots and rows unchanged a second pass writes nothing to the memory, which holds exactly the known or visible mounts that are mounted or above a row |
| `Mounts.MemorySettles` | internal/discovery/deleted.go:430-469 | with every remembered volume mounted one pass settles the memory, whatever rows come and go |
| `Scanners.Scanner.Flush` | internal/discovery/discovery.go:264-280 | buffer and staged counts are surrendered either way; they count only once they commit |
| `Scanners.Scanner.Buffer` | internal/discovery/discovery.go:251-257 | a row and its count are queued together, and flushed at 256 |
| `Scanners.Scanner.NoteUnread` | internal/discovery/discovery.go:826-853 | the unread rules: kept hash, steady state, or a new unread row |
| `Scanners.Scanner.ProcessFile` | internal/discovery/discovery.go:707-784 | change detection reads the store although earlier writes are still buffered, and decides what it would on the catalog the scan began with |
| `Scanners.Scanner.WalkTree` | internal/discovery/discovery.go:525-592 | over WalkDir's order, pruning at excluded directories, the entries dealt with are exactly those with no pruned directory above them, and what cannot be vouched for is collected |
| `Scanners.Scanner.ResolveRoots` | internal/discovery/discovery.go:615-654 | roots are the outermost resolved roots that are not excluded, and whether all were verified |
| `Scanners.Scanner.Scan` | internal/discovery/discovery.go:297-331 | however it ends, the counts are those of exactly the rows committed, which are a prefix of what the walk decides; a completed walk is followed by the deletion pass over what it covered |
| `Rebuild.WalkAddsWanted` | internal/discovery/discovery.go:707-784 | over a steady filesystem the walk leaves the old rows with one current row for each admissible file in scope |
| `Rebuild.SurvivesIff` | internal/discovery/deleted.go:263-319 | a row survives the pass if and only if it is such a file or it is stuck |
| `Rebuild.IncrementalEqualsRebuild` | internal/discovery/discovery.go:297-331 | a scan from any catalog ends with exactly the rows a scan from an empty one gives, if and only if no row is stuck: beneath an absent remembered volume, or gone with no volume evidence or beneath a path that is not a directory |
| `Rebuild.SecondScanWritesNothing` | internal/discovery/discovery.go:297-331 | a second scan writes no row, deletes none and, with every remembered volume mounted, leaves the memory alone |
| `Rebuild.ReplacedDirectoryKeepsItsRows` | internal/discovery/deleted.go:297-309 | a catalogued directory that became a file keeps its row, which a rebuild would not have |
| `Handoff.Pump.Absorb` | internal/adapters/fsevents/watcher_darwin.go:138-158 | the event loop folds events into the batch, a rescan flag drops the paths, and past 8192 paths the batch collapses |
| `Handoff.Pump.Deliver` | internal/adapters/fsevents/watcher_darwin.go:89-116 | the held batch goes out and nothing is held |
| `Handoff.Shared.MergePending` | internal/scheduler/watch.go:243-272 | the set takes a window if and only if the union fits the cap, and reports its size |
| `Handoff.Shared.TakePending` | internal/scheduler/watch.go:277-286 | the set is handed over whole |
| `Handoff.Shared.ScanDue` | internal/scheduler/scheduler.go:624-635 | a forced request is consumed before the walk it asks for |
| `Handoff.Shared.Restore` | internal/scheduler/watch.go:297-305 | a list that cannot be held again asks for a walk |
| `Handoff.Shared.CloseWindow` | internal/scheduler/watch.go:180-212 | a window's paths become pending, or a walk is asked for in their place |
| `Handoff.StepKeepsBounds` | internal/scheduler/watch.go:243-272 | no step takes the pending set past 65536 or a batch past 8192 |
| `Handoff.StepLosesNothing` | internal/scheduler/watch.go:337-387 | no step of either goroutine leaves an event unaccounted for |
| `Handoff.NoEventIsLost` | internal/scheduler/watch.go:146-387 | under every interleaving each usable path ever absorbed is held, has been through a ScanPaths that began after it, or is answered for by a completed, running or promised walk; the pending set never passes its cap |
| `Handoff.DrainedMeansAnswered` | internal/scheduler/watch.go:337-387 | when nothing is waiting anywhere every event has been answered by work that began after it |
| `Handles.Handle.Ref` | internal/daemon/index.go:81-85 | one more request holds it |
| `Handles.Handle.Release` | internal/daemon/index.go:91-96 | the last request out of a retired handle closes it |
| `Handles.Handle.Retire` | internal/daemon/index.go:102-107 | a retired handle nobody holds is closed at once |
| `Handles.Daemon.Acquire` | internal/daemon/index.go:246-294 | the current handle is shared, replaced, dropped or refused, according to the file on disk |
| `Handles.Daemon.Close` | internal/daemon/index.go:226-234 | closed, and the current handle retired |
| `Handles.HandlesAreSafe` | internal/daemon/index.go:68-117 | under every interleaving of acquire, release, replacement and Close a handle's count is the number of requests holding it, none of them holds a closed database, none is closed twice, and at most one handle is not retired |
| `Handles.ClosedForGood` | internal/daemon/index.go:226-306 | after Close no handle is opened, and each is closed exactly once when its last holder lets go |
| `Queue.ClaimBatch` | internal/adapters/sqlite/queue.go:50-90 | only due rows, none twice, at most the limit; a due row is passed over only when three quarters of the batch is newer than it and one quarter is older |
| `Queue.EmptyClaimMeansNothingDue` | internal/adapters/sqlite/queue.go:50-90 | a claim that returns nothing means nothing is due |
| `Queue.GetWork` | internal/adapters/sqlite/queue.go:104-138 | every path that holds the content, or gone when there is none |
| `Queue.PlacesFacts` | internal/adapters/sqlite/queue.go:104-138 | those paths are exactly the documents with that hash, once each, newest mtime first and then least path |
| `Indexers.Indexer.constructor` | internal/pipeline/pipeline.go:50-62 | a new process takes up the run its predecessors left, from a new database on, with both sweeps and the gate to do |
| `Indexers.Indexer.ReadVerified` | internal/pipeline/pipeline.go:389-428 | the first copy that can be read and still hashes to the claimed hash; changed and unreadable are told apart |
| `Indexers.Indexer.FailWith` | internal/pipeline/pipeline.go:464-482 | a failure is recorded under the versions merged at the claim, with no chunks, or the content is found gone; every other content keeps its row, its chunks and its vectors in every generation |
| `Indexers.Indexer.Meanwhile` | internal/pipeline/pipeline.go:341-352 | what other processes commit during the embed leaves the chunks in hand whole or kills them all, charges nobody and finishes nothing |
| `Indexers.Indexer.StoreVectors` | internal/pipeline/pipeline.go:348-358 | the vectors land on the content's own chunks, or the write is superseded and nothing changes |
| `Indexers.Indexer.ProcessContent` | internal/pipeline/pipeline.go:287-373 | an indexed content holds exactly the chunks of bytes that some copy really has and that hash to it; skipped and changed write nothing; every transaction is a step of the machine; no other content's row, chunks or vectors move unless another process moves them, and no attempt is charged |
| `Pipeline.StepKeepsHealthy` | internal/pipeline/pipeline.go:287-373 | no step, a crash or another process's transaction among them, breaks what is kept about embedded content, the sweeps and the content in hand |
| `Pipeline.NoStaleOrHalfEmbeddedIndex` | internal/scheduler/scheduler.go:846-946 | whatever ran before, under whatever models and dimensions, and whatever scan, sweep or re-chunk another process commits: once a process's two sweeps are done and for the rest of its life every indexed row carries its stage versions and has a vector for each of its chunks in the current generation, which is this process's; a failed row lacks them exactly when it is one of those the process lost |
| `Pipeline.StaleFailureIffUnstamped` | internal/scheduler/scheduler.go:1206-1245 | over any run, a row that stands failed after the sweeps is stale if and only if this process gave it up after another process's transaction had taken its stamps while its fate was undecided, nobody had put them back in between, and this process has not claimed it since |
| `Pipeline.RechunkedThenFailedStale` | internal/pipeline/pipeline.go:341-358 | an unfinished content chunked afresh under other stages during its last attempt ends failed and stale, four steps later |
| `Pipeline.SweptThenFailedStale` | internal/scheduler/scheduler.go:1206-1245 | a content whose row another process sweeps away and re-creates during its last attempt ends failed and stale, six steps later |
| `Pipeline.StaleFailureReached` | internal/scheduler/scheduler.go:1206-1245 | from a new database and under a budget of one attempt, each of these is the end of a run of the machine |
| `Pipeline.SupersededIffRewritten` | internal/adapters/sqlite/vec.go:263-326 | the vector write is superseded exactly when every chunk it was embedded from is gone |
| `Pipeline.SupersededMeansAnotherWriter` | internal/pipeline/pipeline.go:424-452 | a superseded write means that another process has written the catalog since this one started |
| `Pipeline.RechunkSupersedes` | internal/pipeline/pipeline.go:348-355 | a content chunked afresh by another process during its embed is reported superseded, and charged |
| `Pipeline.AttemptsRiseOnlyWhenCharged` | internal/scheduler/scheduler.go:1188-1245 | over any run an attempt is charged only straight after a re-probe that passed or a superseded write, on the count the content was claimed with, which is its row's unless another process has written |
| `Pipeline.AttemptsStayBelowTheCap` | internal/scheduler/scheduler.go:1206-1245 | when the write that gives a content up lands, every row still to be worked has attempts below the cap between steps |
| `Schedulers.Scheduler.SweepVersions` | internal/scheduler/scheduler.go:1007-1024 | the sweep that needs no network is done when it lands |
| `Schedulers.Scheduler.Prepare` | internal/scheduler/scheduler.go:951-980 | a probe that fails changes nothing; one that passes makes this process's generation current |
| `Schedulers.Scheduler.Retry` | internal/scheduler/scheduler.go:1188-1199 | an endpoint that does not answer the re-probe stops the drain and charges nothing, to this content or any other |
| `Schedulers.Scheduler.Charge` | internal/scheduler/scheduler.go:1206-1245 | when its write lands the row has one attempt more than was claimed and its next due time, and at the cap, when the second write lands too, is failed without chunks; when the first does not land or the content is gone nothing changes; no other content is touched |
| `Schedulers.Scheduler.ProcessOne` | internal/scheduler/scheduler.go:1031-1158 | a content re-read now is worked at most once and settled by its outcome; no other content is finished or charged, and this one is charged only if one of its own steps is a re-probe that passed or a superseded write |
| `Schedulers.Scheduler.Process` | internal/scheduler/scheduler.go:1031-1158 | a batch that runs through has put every content of it behind the drain |
| `Schedulers.Scheduler.Drain` | internal/scheduler/scheduler.go:846-946 | with discovery writing in between, other processes during the embeds and any failures, the drain ends when finitely many hashes can appear, puts each through the pipeline at most once, is a run of the machine, and once the sweeps are done leaves the index whole |
| `Schedulers.EveryChargeIsEarned` | internal/scheduler/scheduler.go:1188-1245 | in the run a scheduler's indexer stands at the end of, every attempt ever written follows a re-probe that passed or a superseded write |
| `Schedulers.EveryRowHasAttemptsLeft` | internal/scheduler/scheduler.go:1206-1245 | and if no process lost the write that gives a content up, every unfinished row has attempts below the cap |
| `Assembly.SearchVectors` | internal/adapters/sqlite/vec.go:360-400 | the nearest chunks, fanned out over exactly the paths of their content in order |
| `Assembly.CollapseBestPerContent` | internal/domain/search.go:34-63 | the loop with its seen map is the fold that keeps the first row of each content and the other paths of its chunk |
| `Assembly.CollapsedIsFirsts` | internal/domain/search.go:34-63 | collapsing the fan-out of distinct ranked chunks gives one entry per referenced content: its first chunk, with every path that holds it |
| `Assembly.FullAnswerIsFinal` | internal/search/service.go:163-190 | an answer that fills the limit from fewer chunks is the answer from more |
| `Assembly.OverFetch` | internal/search/service.go:163-190 | eightfold over-fetch with one retry returns exactly the answer over the nearest 4096 chunks, of the snapshot it last read; of the one snapshot when the index does not change |
| `Assembly.AnswerHitsAreGood` | internal/adapters/sqlite/vec.go:457-501 | each hit's path is the newest then least path of its content, and with AlsoAt is exactly the paths that hold it, none repeated |
| `Assembly.AnswerIsOrdered` | internal/domain/search.go:34-63 | hits are different contents in order of distance |
| `Assembly.AnswerIsBest` | internal/search/service.go:163-190 | a chunk found whose content is referenced is answered for by its content's hit at no greater distance, or by a full answer no part of which is farther |
| `Service.Validate` | internal/search/service.go:216-239 | a request is valid exactly when it has a query, a mode this build answers and a limit in range |
| `Service.CompatibleIsIdentity` | internal/search/service.go:265-279 | the compatibility gate with the dimension check admits a float32 cosine generation exactly when its identity is the configured one |
| `Service.Search` | internal/search/service.go:119-211 | each refusal, and otherwise the full answer over one of the snapshots read; over the one snapshot when there is one |

## Left out

- `ScanPaths` and `purge` (event-driven reconcile of named paths): the handoff model treats a ScanPaths run as
  one step that answers for its list; its own change detection is the walk's, which is modelled.
- Reporting only: PathErrors, Unmounted, DeclineReasons, last_error texts, progress lines, status counters and
  gates, log sampling.
- Preview text of a hit, HTTP transport, client, CLI, configuration parsing, Time Machine exclusion.
- `CanonicalCase` and `FoldDataVolume`: what a cleaned configured root resolves to is a parameter. The paths a
  walk shows and the catalog holds are taken to be cleaned.
- `isTextFile` is a parameter: which names carry text does not matter to any result here.
- SHA-256 is a parameter of `Indexers.Indexer`; fingerprints and decimal spellings are assumed to spell
  different values differently.
- Floating point: distances and vectors are reals.
- One clock reading per scan and per sweep; a process's transactions otherwise take any clock values.
- `ListWorkItems` and the one-shot `Run` used by the evaluation harness; vector generations are never retired
  in the model.
- The back-off jitter is any wait; the deferral of a failed probe only limits how often the endpoint is asked.
- Power and battery gates appear only as a reason for a drain to stop; the cycle around a drain is not modelled.
- Shutdown: a walk or a delivery cut short by cancellation is outside `Handoff`, whose guarantees are about the
  time before it.
- Scanners.Scanner.ResolveRoots: the library sort of the configured roots also drops repeats here, which the
  code does in a separate step with the same result.
- Stores.Store.DeleteByPaths: a chunk of 256 paths lands or does not; a failure inside a transaction is the
  transaction not landing.
- Indexers.Indexer.ProcessContent: another process commits only during the embed, the wide window; its commits
  in the microseconds between a claim's other transactions, and so the gone arms of the first and last of them,
  are not modelled.
- Pipeline.Step: a second writer scans, sweeps orphans and chunks unfinished contents afresh; one that also
  finishes contents, under another configuration, is not modelled.
- Handles.Daemon.Acquire: requires only what the gate gives it; waiting for the gate under a context, and giving
  up, is a request that never enters it.
