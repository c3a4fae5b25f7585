# lrc-sync, modelled and proved in Dafny

lrc-sync is a daemon that keeps lyric sidecars, a SQLite cache and a music library consistent while
users edit files, a filesystem watcher reports changes and several workers run at once. This project
models the logic of its four linked components and proves what they promise, over every input, every
run and every interleaving. `dafny verify dfyconfig.toml` checks it.

## How it is organized

**Content snapshots** (`SnapshotIndex`, `Snapshots`, `SnapshotRuns`, `SnapshotGuarantees`, `Hardlinks`,
`HardlinkEscape`, `Rereading`, `SnapshotReads`). Parsed tags and sidecar texts are cached under a file's
metadata stamp and a version, the sum of a counter per file and one library epoch. `Snapshots.Next` is one
step of the whole system: a write in place (its stamp may stay), any replacement or linking, one step of a
reader (stamp, version, lookup, read, both rechecks, store, and the two comparisons of `still_current`),
the dispatcher's alias lookup and invalidation, overflow, watch loss, a repair, the end of the dispatcher
or of the repair loop, or a restart. The premises are explicit: a stamp that has changed never recurs for
its path; while the watch is intact, a write in place raises an event that names its path; a path has one
reader at a time, because its directory has one owner. A raise is outstanding only while somebody is left
to make it (`SnapshotGuarantees.DebtIsPayable`). `uncovered` names what no premise covers: aliases that
were not indexed under the written inode, writes after a handled watch loss, whatever a dispatcher or a
repair loop that ends leaves undone, and changes still pending at an ordinary restart. `PremisedRun` says
step by step that none of these happens.

**Work queue and change pipeline** (`WorkQueues`, `QueueRuns`, `Watching`, `Pipeline`). `WorkQueue` is
the queue as an object; each region that holds its lock is one method, tied to a function of the state
before. `QueueRuns` lets producers, workers, shutdown and repair interleave at will; each step carries
its own answer of `canonicalize`, so links may be retargeted between any two steps. `Pipeline` adds the
native callback, the channel of 256 events, the dispatcher and the repair loop with its scans; what became
of a path is recorded with the answers that the filesystem gave when the path's turn came.

**Publication and provenance** (`Tables`, `CacheDbs`, `Scenes`, `Publishing`, `Currency`, `Traces`, `Worlds`,
`Vouching`, `Processor`, `Titles`, `Reconciliation`, `DirectoryPass`, `QuietPasses`, `Convergence`,
`Settling`). A `World` holds the sidecars, the archives and the cache of one directory, and the whole
snapshot system with its audio files and those very sidecars: `Publishing.Linked` says that both agree on what
a sidecar holds, in every moment of every history, and what the owner publishes, moves, archives or deletes is
a step of the snapshot system too. Audio and sidecars are read by the same steps of a reader. Before each step of its owner the users may create, replace and
remove any file, the snapshot system may take any steps but the owner's own, and other workers may commit
rows of other directories; each step of the owner may fail, after its effect or before it. Every look and
every act is a moment of a history, with the state it left, and a crash is a history that ends early. What
a moment needs is stated once, in `Publishing.Fair`, `Publishing.Seen` and `Publishing.Vouched`: lyrics
appear only after their row is committed and after no sidecar was found beside the audio, a commit names
the successful check of that audio and the lookup, cache answer or sidecar that supplied it, the check
came after every lookup, an orphan goes only on the grounds of a listing and two looks right before, and a
move names the readings of its new owner. `Currency` draws the consequences by the snapshot theorems. In a
quiet world, where nobody else acts, the same code is proved to follow `QuietPass`, `QuietTurn` and
`QuietDirectory` branch by branch; `Convergence` and `Settling` reason about them.

**Matching and lookups** (`Text`, `Chains`, `Tags`, `Selection`, `Matcher`, `Widening`, `Cascade`, `Gate`,
`Lookups`).
Real strings over ASCII, the label grammar word by word, records with real-valued durations, and a gate
over integer time whose instants end at a limit, shared by callers whose requests interleave.

## What was found

- A raise of every indexed alias's version by the time a write's event is dispatched is not quite what
  the code gives: an alias that was replaced and stored again under another inode meanwhile keeps its
  version (`HardlinkEscape.AliasMayEscape`, from a fresh start). `Hardlinks.AliasEscapesExactly` says which
  aliases escape, `Hardlinks.HardlinkCoverage` which do not, and `Hardlinks.AliasKeepsNoStaleRow` that none
  of them keeps a stale row.
- Changes are lost when an invalidation fails: the dispatcher leaves without raising a repair or marking
  watch loss (src/watch.rs:101-104), and with fallback scans configured the service goes on
  (src/main.rs:143-149). The event in hand, those waiting in the channel and those heard later are all lost
  (`Pipeline.FailureLoses`), and so is a lost watch that was noticed but not yet handled, because the
  dispatcher looks at the mark only at the head of its loop (`Pipeline.FailureSwallowsLoss`). A change heard
  between the end of a dispatcher that handled a lost watch and the end of its watcher is lost as well
  (`Pipeline.LateIsLost`). `Pipeline.InvalidationDecides` shows that in every run exactly these are lost, and
  they only as long as no later repair, library scan or start of the directory makes up for them.
- A group of two formats need not converge: storing a miss under the second format can remove the very
  ambiguity that caused the lookup, so that the next pass publishes a text it refused before
  (`Convergence.TwoFormatsMayNotRest`, a pair of passes). `Convergence.SecondPassRests` gives the exact
  condition, which can be told before the first pass, and a group of one format always converges.
- One reconciliation need not bring a directory to rest: a later group may take the orphan that made an
  earlier group's choice ambiguous (`Settling.ReconcilingMayGoOn`). It rests exactly when no group claims an
  orphan, and after at most as many reconciliations as there were orphans (`Settling.ReconcilingRests`).

## Model

| member | source | states |
|---|---|---|
| SnapshotGuarantees.SnapshotCoherence | src/scan.rs:351-409 | In every interleaving, a stored row that matches the file's present stamp and version holds its present content, unless a raise that somebody will make is outstanding or nothing covered the change |
| SnapshotGuarantees.PremisedRunCovers | src/watch.rs:69-106 | Along runs that respect the premises, no change stays uncovered |
| SnapshotGuarantees.PremisedCoherence | src/scan.rs:351-409 | Under the premises, the cache agrees with rereading the file as soon as no raise is outstanding |
| SnapshotGuarantees.DebtIsPayable | src/watch.rs:54-108 | Whenever a raise counts as outstanding, steps of the dispatcher and the repair loop make it |
| SnapshotGuarantees.CurrentAtCheck | src/scan.rs:336-349 | When the stamp agrees in one state and the version in any later one, the file held exactly the snapshot's content at the stamp comparison, or a raise was outstanding then |
| SnapshotGuarantees.RunRaisesVersion | src/db.rs:119-145 | No run ever lowers the version of a file |
| SnapshotGuarantees.EpochRetires | src/db.rs:142-145 | Once the epoch moved, no older row or late commit matches any more, whatever stamp the file shows and whatever follows |
| SnapshotGuarantees.LossRetiresRows | src/watch.rs:59-68 | Rows from before a watch loss never match again, across a restart and any later run |
| Hardlinks.HardlinkCoverage | src/watch.rs:77-99 | After a write through a path indexed as the written inode, each other path that stays indexed as it has its version raised once the event is dispatched, or a repair is due |
| Hardlinks.StoreKeepsAlias | src/db.rs:177-208 | A worker that stores a replaced path first takes over the raise owed to the aliases it leaves |
| Hardlinks.RaisesExactly | src/db.rs:111-208 | Each step of the system raises a path's version by one or not at all, and exactly for its stated reasons |
| Hardlinks.DispatchRaisesExactly | src/watch.rs:77-99 | From the arrival of an event to the end of a run, a path's version moved exactly if the dispatch found it and ended, or another cause raised it |
| Hardlinks.AliasEscapesExactly | src/watch.rs:77-99 | An alias of a written inode that the event does not name keeps its version through the dispatch exactly if at every lookup it is indexed neither under the current nor under the recorded inode of the name, and nothing else raises it |
| Hardlinks.AliasKeepsNoStaleRow | src/scan.rs:336-409 | Raised or not, no alias of a written inode keeps a matching row that is stale, unless excused |
| SnapshotRuns.RunKeepsInv | src/scan.rs:351-409 | Every run keeps every row and every reader sound |
| SnapshotRuns.WriteExcuses | src/watch.rs:69-100 | A write in place leaves each affected alias owed a raise, or uncovered |
| SnapshotRuns.ReadIsExact | src/scan.rs:356-365 | A read that no write or replacement tore is exact, and a torn one is never trusted with a matching pair |
| SnapshotRuns.StoredIsSound | src/db.rs:237-302 | A store under the old pair is sound however late it commits |
| HardlinkEscape.AliasMayEscape | src/db.rs:177-208 | From a fresh start, real passes lead to a state in which an indexed alias, replaced and stored meanwhile, keeps its version although the event was dispatched |
| SnapshotIndex.InvalidateFilesRaises | src/db.rs:111-128 | Exactly the listed files move, by one each; the epoch and the index stay |
| SnapshotIndex.InvalidateOneMore | src/db.rs:119-128 | One transaction over many files is one step per file |
| SnapshotIndex.IndexFileRaises | src/db.rs:177-208 | Storing a snapshot moves the index entry and raises exactly the displaced aliases |
| SnapshotIndex.EqualSumsMeanNoMove | src/db.rs:134-145 | Equal version sums mean that neither the file's counter nor the epoch moved |
| Rereading.RereadingStoresNothing | src/scan.rs:351-381 | A reading in a quiet library is exact, leaves its row, and changes neither rows nor index if the row was there |
| SnapshotReads.ReadThrough | src/scan.rs:351-381 | With the others raising versions and storing other rows between any two accesses: a snapshot is handed out only under a stamp, a canonical path and a version that held before and after, and is the cached row or what was read and then stored |
| CacheDbs.CacheDb.InvalidatePaths | src/db.rs:119-128 | The loop raises each listed file once |
| CacheDbs.CacheDb.InvalidateFilesNow | src/db.rs:111-117 | All listed files are raised or, without a commit, none |
| CacheDbs.CacheDb.InvalidateAllSnapshots | src/db.rs:142-145 | The epoch rises, or nothing changes |
| CacheDbs.CacheDb.FileVersion | src/db.rs:134-140 | The file's counter plus the epoch, absent rows counting zero |
| CacheDbs.CacheDb.PathsSharing | src/db.rs:147-168 | The paths indexed under the current inode or the recorded one |
| CacheDbs.CacheDb.IndexNow | src/db.rs:177-208 | Displaced aliases are raised and returned, and the entry moves |
| CacheDbs.CacheDb.StoreTags | src/db.rs:237-259 | Row, index entry and displaced aliases in one transaction |
| CacheDbs.CacheDb.StoreLyricFile | src/db.rs:281-302 | The same for a sidecar's text |
| CacheDbs.CacheDb.CachedTags | src/db.rs:210-235 | The row of exactly this stamp and version |
| CacheDbs.CacheDb.CachedLyricFile | src/db.rs:261-279 | The same for a sidecar's text |
| CacheDbs.CacheDb.CachedResult | src/db.rs:337-350 | The recorded result for tags that normalize alike, misses only until they expire |
| CacheDbs.CacheDb.FindCachedLyrics | src/db.rs:386-408 | The one text on record for exactly these tags, if there is exactly one |
| CacheDbs.CacheDb.Store | src/db.rs:410-449 | Track row and provenance together or not at all; blank lyrics are refused |
| CacheDbs.CacheDb.Ingest | src/db.rs:451-477 | Nothing for a text already on record, otherwise a store under the recorded origin or as curated |
| Tables.ReusableMeans | src/db.rs:386-408 | Exact reuse holds exactly when some track with the same tags holds the text and none holds another |
| Tables.StoredIsCached | src/db.rs:337-350 | What is stored is what is cached, for tags that normalize alike, a miss until it expires |
| Tables.IngestKeepsOrigin | src/db.rs:451-477 | Ingestion records the text, never passes it off as generated, and touches no other row |
| Tables.IngestIsIdempotent | src/db.rs:451-466 | Ingesting a text again changes nothing |
| WorkQueues.WorkQueue.Submit | src/queue.rs:68-106 | One turn of admission: coalesce, queue, refuse or wait; a waiting one is never told that the queue is full |
| WorkQueues.WorkQueue.Take | src/queue.rs:108-138 | The first key that still resolves to itself, stale ones dropped with a repair request |
| WorkQueues.WorkQueue.Finish | src/queue.rs:140-152 | The key is released, or queued again when it is dirty or asked to be |
| WorkQueues.WorkQueue.Close | src/queue.rs:154-162 | Only running keys stay |
| WorkQueues.WorkQueue.TakeRepairRequest | src/queue.rs:164-170 | The flag is reported and lowered at once |
| WorkQueues.AdmitKeepsValid | src/queue.rs:68-106 | Admission keeps `ready` duplicate-free, exactly the queued keys, and all entries within capacity |
| WorkQueues.PopKeepsValid | src/queue.rs:108-138 | So does taking |
| WorkQueues.ReleaseKeepsValid | src/queue.rs:140-152 | So does finishing |
| WorkQueues.ShutKeepsValid | src/queue.rs:154-162 | So does closing, and only running keys remain |
| WorkQueues.ProcessItem | src/main.rs:182-196 | A stale route asks for repair, and only a retry asks for a rerun |
| QueueRuns.EveryRunIsSound | src/queue.rs:68-162 | From an empty queue every interleaving keeps the queue valid, each key owned by at most one item, all three unreachable branches unreached, accepted work served, repairs heard, and the counts |
| QueueRuns.RunKeepsInv | src/queue.rs:68-162 | Validity and exclusive ownership over whole runs |
| QueueRuns.RunKeepsServed | src/queue.rs:77-152 | An acceptance newer than the last start is queued, runs dirty, or was followed by a repair, unless the queue stopped, links retargeted at will |
| QueueRuns.RunKeepsCounted | src/queue.rs:77-152 | Starts equal finishes plus the running one, and starts are at most acceptances plus requested reruns |
| QueueRuns.WaitIsBounded | src/queue.rs:108-138 | Each pop moves a waiting key one place forward; within position plus one pops it is started, or dropped with a repair |
| QueueRuns.DirtyIsAccepted | src/queue.rs:77-88 | While a worker holds a key, it is dirty exactly when work was accepted for it meanwhile |
| QueueRuns.RerunsCoalesce | src/queue.rs:140-151 | Any number of submissions to one running key add exactly one rerun, at the tail |
| QueueRuns.TakeSkipsStaleRoutes | src/queue.rs:114-131 | `take` drops exactly the stale prefix and takes the first good key |
| Watching.InvalidateEvent | src/watch.rs:77-100 | Each eligible path is looked up as the index and the filesystem are at its turn, others acting in between; the paths and the aliases found are raised once each, and the event goes on with all of them |
| Watching.Dispatch | src/watch.rs:241-277 | A change performs its orders: a rescan asks for repair, each eligible audio or lyric path submits its parent, an eligible directory its tree, and what cannot be walked asks for repair |
| Watching.TasksAreRequested | src/watch.rs:241-277 | A task is performed exactly if some path of the change requests it |
| Watching.PerformedOwes | src/watch.rs:241-277 | Afterwards each visited directory that resolves is owed a pass or a repair is asked for, and nothing else comes to be owed |
| Watching.FilesAreOwed | src/watch.rs:264-276 | The parent of each eligible audio or lyric file of a change had gone, is owed a pass, or a repair is asked for |
| Watching.Callback.Hear | src/watch.rs:116-157 | Lost coverage is marked and never queued; a full channel asks for repair, and a closed one does not |
| Watching.Compare | src/watch.rs:207-222 | A polling round reports exactly the paths whose stamp differs |
| Watching.Poll | src/watch.rs:199-224 | Each round compares two successive snapshots |
| Watching.PollingSeesLastingChanges | src/watch.rs:199-224 | If a path's stamp differs between two snapshots, some round between them reports it, as created or removed |
| Pipeline.NoChangeIsLost | src/watch.rs:54-157 | In every run each path of each change taken in is in flight, or its directory was accepted and is queued, running dirty or started later, or the filesystem answered that it is no eligible file or has no directory, or something later covers it: a repair request, a library scan, a start of its directory, a lost watch that the dispatcher has yet to handle, or a stop; unless a failed invalidation dropped its event or the dispatcher had left for a lost watch before it was heard |
| Pipeline.InvalidationDecides | src/watch.rs:54-108 | In every run a path of a change is lost exactly if its turn never came, nothing later covers it, and an invalidation failed while its event waited or before it was heard, or the dispatcher had left for a lost watch before it was heard |
| Pipeline.FailureLoses | src/watch.rs:101-104 | A run in which one failed invalidation loses the event in hand, one that waits and one heard later |
| Pipeline.FailureSwallowsLoss | src/watch.rs:54-104 | A run in which a failed invalidation also swallows a lost watch that was noticed meanwhile: nobody handles it any more |
| Pipeline.LateIsLost | src/watch.rs:55-68 | A run in which a change is heard after the dispatcher left for a lost watch, and is lost |
| Pipeline.LossIsHandled | src/watch.rs:54-108 | In every run a lost watch that was noticed is still to be handled by a dispatcher that goes on, or a repair was asked for since, or the service stopped, or an invalidation failed and the dispatcher left |
| Pipeline.FatesAreAnswers | src/watch.rs:241-277 | What became of a path is what the filesystem answered at its turn |
| Pipeline.DroppedMeansFailed | src/main.rs:143-149 | The dispatcher leaves in the failed state exactly if an invalidation fails, and without fallback scans the service then stops |
| Pipeline.RepairsReachTheLibrary | src/main.rs:150-159 | In every run each repair request that was taken is still being carried out, or raised the epoch and then submitted every directory that resolves, each accepted after the request and served since, unless the service stopped |
| Pipeline.CoverIsRepaired | src/main.rs:150-159 | A repair that covers a change is still asked for, or was taken after the change and so reaches the library, unless the service stopped |
| Pipeline.ScanIsRepaired | src/main.rs:150-159 | A library scan that began after a change, asked for or scheduled, is still at work or raised the epoch and submitted every directory that resolves |
| Pipeline.ScansArePerformed | src/main.rs:150-159 | Every scan that is recorded began with a raise of the epoch and submitted each directory of its tree in turn |
| Pipeline.RunKeepsSound | src/watch.rs:54-157 | Callback, dispatcher, repair loop, scans and queue keep all of this over whole runs, the handling of a lost watch included, and what is served stays served |
| Publishing.NothingIsLost | src/files.rs:204-272 | Along every history without deletions, a sidecar its users leave alone keeps its bytes, at its own path, a reconciled path of its directory or an archive path |
| Publishing.StepKeeps | src/files.rs:180-244 | No daemon step but a deletion destroys or overwrites an existing sidecar |
| Publishing.RestartKnowsItsOwn | src/scan.rs:209-234 | Wherever a run stopped, an untouched published file has its row: equal tags keep its origin, and other tags make it stale exactly if it is generated |
| Currency.CheckedWasCurrent | src/scan.rs:336-349 | A successful check means that at its stamp comparison the audio held exactly the tags that were read, or a change of it was outstanding or uncovered |
| Currency.ConfirmedWasCurrent | src/scan.rs:351-381 | So does a finished reading, at its second stamp comparison |
| Currency.TakenWasHeld | src/scan.rs:383-409 | A finished reading of a sidecar means that at its second stamp comparison the file held exactly this text, unless a change of a user's file was outstanding or uncovered then; what the daemon wrote and nobody touched is never misread, excused or not |
| Currency.DisplacedAreSubmitted | src/scan.rs:371-417 | Before a reading ends, exactly the aliases whose versions its store raised are submitted by their directories |
| Currency.CommitsAreCurrent | src/scan.rs:278-313 | Every committed row carries the tags that its audio held at the last successful check, unless excused; the check came after every lookup and every question to the cache |
| Currency.CommitsAreSupplied | src/scan.rs:235-277 | A miss is committed only if LRCLib answered so for exactly these tags; lyrics are what it found, what the cache holds for these tags, or what a lone sidecar held at the stamp comparison of its reading, unless a change of a user's file was outstanding or uncovered then |
| Currency.LookupsWereNeeded | src/scan.rs:235-253 | LRCLib is asked only when, just before, neither the track's row nor exact reuse gave a result |
| Currency.IngestsAreCurrent | src/scan.rs:209-224 | An ingested text is exactly what the sidecar held at a stamp comparison after the audio was read, unless a change of a user's file was outstanding or uncovered then; its tags are those that the audio held, and it is never one on record as generated for another recording |
| Currency.PublicationsAreCurrent | src/scan.rs:281-308 | A published text is on record under tags that the audio held at a check after every lookup, unless excused, and no sidecar was found beside the audio since |
| Currency.OrphansAreUnpaired | src/scan.rs:158-185 | Whatever interferes, a sidecar is deleted or archived as an orphan only if the listing held no audio entry of its stem, and right before neither did the directory and it was no link |
| Currency.StaleIsChecked | src/scan.rs:211-233 | Lyrics are archived for another recording only if they are on record as generated for other tags, the sidecar was read to hold them, and the audio was checked after that; what goes is the file that was read, unless it was replaced in between or a change of it was outstanding or uncovered at the reading |
| Currency.MovesAreClaimed | src/scan.rs:470-500 | An orphan is moved only without audio of its name, with a row that allows the text it was read to hold, and after each file of its new owner was read to hold the tags it is moved for; what moves is the file that was read, with the same exceptions |
| Scenes.AgreementIsExact | src/scan.rs:336-409 | Stamp agreement now and version agreement later mean that the file held exactly the snapshot, or an excuse |
| Scenes.BesideKeeps | src/scan.rs:336-409 | Whatever the others do, snapshots stay sound, the owner's readers stay where they are, and versions only rise |
| Scenes.BesideKeepsFaithful | src/scan.rs:383-409 | Whatever the others do, a file that is not written in place never comes to match a snapshot of another text, even while raises are outstanding |
| Worlds.World.Yield | src/scan.rs:105-187 | Whatever others do, the directory's rows and its owner's readers stay and the daemon's files only vanish; users' changes of sidecars are the changes that the snapshot system sees |
| Worlds.World.ReadAudio | src/scan.rs:351-381 | Step by step with everything else in between: tags that are handed out were confirmed by both rechecks, a changed file is a doubt and an unreadable one a failure |
| Worlds.World.StillCurrent | src/scan.rs:336-349 | Success leaves for every file of the group a check by stamp and version, made in this call; a failure is a doubt, and a quiet world has none |
| Worlds.World.ReadLyrics | src/scan.rs:383-409 | Step by step with everything else in between: a text that is handed out is not blank and was confirmed by both rechecks, so the sidecar held it at the second stamp comparison, unless a change of a user's file was outstanding or uncovered then; otherwise it fails |
| Worlds.World.StoreRow | src/scan.rs:371-417 | The row of a confirmed reading is stored, and the directories of the displaced aliases are submitted at once |
| Worlds.World.HasAudio | src/scan.rs:543-552 | Whether a directory entry pairs the sidecar with audio now, on record in the history |
| Worlds.World.IsLink | src/scan.rs:167-170 | Whether the sidecar is no regular file, on record in the history |
| Worlds.World.KnownResult | src/scan.rs:235-247 | The track's own lyrics, exact reuse, or the track's recorded miss, in this order, as the cache says at each question |
| Worlds.World.Store | src/db.rs:410-449 | A commit keeps every published file backed by its row, and needs the check and the supply of this result |
| Worlds.World.Ingest | src/db.rs:451-477 | An ingestion keeps every published file backed by its row |
| Worlds.World.RenameNoReplace | src/files.rs:204-244 | The file is carried unchanged to a free name, or stays |
| Worlds.World.Quarantine | src/files.rs:246-272 | The file goes to an archive number that was free when its turn came, with files appearing between any two attempts; nothing is overwritten, a failure is on record, and a quiet search ends |
| Worlds.World.WriteNew | src/files.rs:173-201 | A committed text is published unless a file is there |
| Worlds.World.MoveSidecar | src/files.rs:204-244 | A reconciled file is carried unchanged, and is not on record as generated |
| Worlds.SlotsAreMany | src/files.rs:261-270 | Occupied archive numbers are at most as many as files, so the search ends |
| Processor.ReadGroup | src/scan.rs:190-196 | All tags, each with a finished reading of this pass, or the first failure or doubt |
| Processor.ProcessGroup | src/scan.rs:189-315 | Whatever interferes, the pass acts only for its own sidecar name and on evidence of its own, asks for a rerun exactly if its last moment is a doubt, fails only if its last moment is a failure or a change that may not be durable, and ends well otherwise only if every file was read, the history accounts for the outcome, and what it published or missed was withdrawn or all audio checked again after it; in a quiet world it does exactly what `QuietPass` says |
| Processor.Publish | src/scan.rs:284-308 | The row is committed before the file appears, and a sidecar found beside it wins |
| Processor.WriteAndCheck | src/scan.rs:295-307 | A lost race or a later sidecar leaves the user's file and archives only the published one |
| Processor.CheckAlone | src/scan.rs:299-314 | The published file is retracted if another sidecar stands beside it, and otherwise the audio is checked once more |
| Processor.IngestCollision | src/scan.rs:317-334 | A single eligible sidecar is stored as curated for every format with the text that was read from it, anything else is left alone |
| Processor.JudgeExisting | src/scan.rs:211-233 | A listed sidecar is ingested, or archived only if it is generated for other tags; in a quiet world exactly if |
| Processor.ArchiveStale | src/scan.rs:226-233 | It is archived only after one more check of the audio, and a file that stands there again asks for a rerun |
| Processor.Conclude | src/scan.rs:278-314 | Nothing is committed before the audio was checked again after the lookup, nor ends well before it was checked after the commit |
| Processor.Resolve | src/scan.rs:235-277 | Cached lyrics, exact reuse, recorded miss or lookup, in this order; whatever is committed was supplied so, and ambiguity, failure and cancellation commit nothing |
| Convergence.SecondPassRests | src/scan.rs:189-315 | After a pass that ended well the next one changes neither files nor rows, asks nothing and requests no rerun, exactly unless the first one was to ask in vain while one single text for these tags stood outside the group |
| Convergence.AskingIsForeseen | src/scan.rs:235-253 | A pass asks LRCLib exactly if its guards say so beforehand |
| Convergence.SingleFormatRests | src/scan.rs:189-315 | A group of one file always converges |
| Convergence.TwoFormatsMayNotRest | src/scan.rs:309-313 | A pair of passes over a group of two formats, from rows that were stored, of which the second publishes |
| Convergence.IngestedAllRecords | src/scan.rs:220-224 | Ingesting for a whole group leaves every format recorded under one origin |
| Convergence.MissLeavesOutside | src/db.rs:386-408 | Storing a miss for a group leaves exactly the texts recorded outside it |
| Settling.SidecarsSettle | src/scan.rs:105-187 | Where every group has a sidecar and none is generated for other tags, a quiet pass that keeps orphans leaves all files, and the next one lists the same, leaves the rows too and asks for no rerun |
| Settling.TurnsShrink | src/scan.rs:440-501 | A reconciliation moves nothing exactly if no group claims an orphan, and otherwise it leaves fewer orphans |
| Settling.ReconcilingRests | src/scan.rs:419-503 | Reconciling again and again moves nothing any more after at most as many times as there were orphans |
| Settling.ReconcilingMayGoOn | src/scan.rs:440-501 | Two orphans and two recordings for which a second reconciliation moves again |
| DirectoryPass.ProcessDirectory | src/scan.rs:105-187 | Over any interference and up to any failure orphans are moved, archived or deleted only in the mode that asks for it and on the grounds of this very pass. A pass that ends well left at once because the service stops or the directory is excluded or gone, or it listed exactly what was found to count, gave each group that could be read its turn in reconciling mode, processed each group once and to its end and dealt with every unpaired sidecar unless the service stopped, and asked for a fresh pass exactly if a group was in doubt; it fails only when something failed. A quiet pass does exactly what `QuietDirectory` says |
| DirectoryPass.PassAsksExactly | src/scan.rs:140-157 | A pass that listed the directory asks for a fresh one exactly if a moment of its groups was a doubt |
| DirectoryPass.PassLosesNothing | src/scan.rs:158-185 | In every mode but deletion a pass loses no text |
| DirectoryPass.ProcessGroups | src/scan.rs:140-157 | Whatever interferes, each group once and to its end, and all of them unless the service was seen to stop; groups with several sidecars skipped, failures left to later scans, and a rerun exactly for a doubt; a quiet world does exactly `QuietGroups` |
| DirectoryPass.RerunMeansDoubt | src/scan.rs:140-157 | Over any number of groups a rerun is asked for exactly if a moment of their passes was a doubt |
| DirectoryPass.DisposeOf | src/scan.rs:166-184 | A sidecar that is dealt with was found paired or a link, or it is kept, archived or deleted by mode on the grounds of the listing and two looks made here, and otherwise something failed |
| DirectoryPass.DisposeOfAll | src/scan.rs:158-187 | Every unpaired sidecar is dealt with, unless the service stops or something fails |
| DirectoryPass.DisposalsAreExact | src/scan.rs:158-185 | Quiet deletion removes exactly the listed regular sidecars without audio, and the keeping modes nothing |
| DirectoryPass.List | src/scan.rs:116-136 | The listing holds exactly those entries of its moment that were found to count, among them every file the daemon published, and reserves every audio stem that its moment saw |
| DirectoryPass.ProcessWork | src/scan.rs:75-102 | A stale route is told exactly when the directory no longer resolves to its key, and touches nothing; otherwise the outcome is that of the pass: a retry exactly if it listed the directory and a group was in doubt, a failure only when something failed |
| Reconciliation.Reconcile | src/scan.rs:419-503 | No orphan goes to two stems and no stem receives two; each was the only remaining name for a title that exactly one group holds, all of whose files were read to hold its tags, and its move is on record for them; every group that was read has its turn, unless something fails; a quiet map stays in step with the files |
| Reconciliation.Turn | src/scan.rs:440-501 | A group moves its candidate, or the history shows what spoke against it; in a quiet world it moves exactly if nothing does |
| Reconciliation.Gather | src/scan.rs:424-439 | Exactly the groups all of whose files were read, with their normalized tags; each other one has a file that failed or changed |
| Reconciliation.Relocate | src/scan.rs:470-500 | An orphan is moved, or it was seen to have audio, no readable text, a row that forbids it, an owner that changed, or a name that is taken |
| Reconciliation.StillTagged | src/scan.rs:485-491 | Each file was read again to hold the tags, or one was seen not to |
| Reconciliation.Candidate | src/scan.rs:441-466 | The only orphan for a title that no other readable group shares |
| Reconciliation.MoveKeepsStep | src/scan.rs:496-499 | A move keeps the map exactly in step with the files |
| DirectoryPass.ReconciledIsListed | src/scan.rs:137-146 | After reconciliation the listing still holds every file the daemon published |
| Titles.UniqueOrphanMatch | src/scan.rs:575-596 | The only matching name, and none if there are none or several |
| Titles.WithoutNumberIsLongest | src/scan.rs:24-25 | Exactly the longest track prefix of one to three digits and separators is removed |
| Tags.CleanMetadataValue | src/tags.rs:98-110 | The loop ends and computes the cleaned form |
| Tags.CleanIsCore | src/tags.rs:98-110 | A text is the cleaned form exactly if it is what remains without the maximal chain of trailing labels and surrounding space |
| Tags.CleanIsIdempotent | src/tags.rs:98-110 | Cleaning twice is cleaning once |
| Tags.CleanCommutesWithNormalize | src/tags.rs:49-55 | Cleaning and normalizing commute |
| Tags.CleanKeepsNormalEquality | src/tags.rs:28-47 | Values that normalize alike stay alike when cleaned |
| Widening.FallbackWidens | src/lrclib.rs:263-298 | Every record accepted exactly is accepted with cleaning and a relaxed album |
| Widening.EmptiedAlbumHasNoContext | src/lrclib.rs:329-353 | An album that cleaning empties says nothing about the recording |
| Matcher.SelectRecords | src/lrclib.rs:257-327 | The loops compute the set form of the selection |
| Selection.ChooseFrom | src/lrclib.rs:264-326 | The same for any way of judging records |
| Selection.ChooseMeans | src/lrclib.rs:313-326 | A miss exactly without usable records, the common offer of the best album tier, and ambiguity exactly if two of its records differ |
| Selection.ChooseIgnoresNoise | src/lrclib.rs:302-307 | Order, duplicates and records without lyrics do not matter |
| Cascade.FoundHasWitness | src/lrclib.rs:78-156 | Found lyrics come from a record of an answer that agrees on artist, title, length and album, exactly so without the fallback |
| Cascade.ExactWithoutFallback | src/lrclib.rs:102-106 | Without the fallback, artist, title and known album agree after normalization alone |
| Cascade.MissIsComplete | src/lrclib.rs:86-118 | A miss means that every stage was answered, none was cut off, and none held a usable candidate |
| Lookups.CommittedMissIsComplete | src/scan.rs:254-277 | With a client that keeps its contract, a miss is committed only if LRCLib was asked for exactly these tags and every enabled stage was answered by a reply that was not cut off and held no usable record |
| Lookups.CommittedLyricsAreDescribed | src/scan.rs:254-277 | Looked-up lyrics that are committed stand in a reply to the client, in a record that describes the track |
| Gate.Client.Send | src/lrclib.rs:163-217 | Each send waits until the earlier exchanges ended and rested, and the gate closes for good when the next instant cannot be represented |
| Gate.Client.Request | src/lrclib.rs:158-223 | At most two sends, the second only after a 429 and then unless cancelled or closed; none once the gate is closed for good; the answer is what the last reply says |
| Gate.Client.SearchRecords | src/lrclib.rs:120-140 | A full page of results is ambiguous, any other is selected from |
| Gate.Client.FetchInner | src/lrclib.rs:78-118 | With requests of other callers between any two of its own: the stages in order with answers that responses to this caller gave, at most six sends of its own, nothing sent when cancelled or without a duration |
| Gate.Client.Fetch | src/lrclib.rs:70-76 | Found, instrumental and missed only by following the stages; failures and cancellation are neither |
| Gate.FollowsIsNoFailure | src/lrclib.rs:70-118 | No followed cascade ends in a failure or a cancellation |

## Left out

- HTTP, TLS, JSON and date parsing: each exchange has an arbitrary reply, with its delay and its records.
- SQLite: each table is a map and each transaction one step that may fail without effect.
- Tag parsing, the filesystem's own calls, permissions, fsync and temporary files: tags are given per file, paths are opaque names with a parent, a stem and an extension, and eligibility is a given predicate.
- Wall-clock waits, condition variables and thread spawning: any step may come next, and time is an integer.
- Configuration, logging, signals, packaging and test support.
- The branches for other systems than Unix, where snapshots are off, and Unicode beyond ASCII.
- The wait loops of `submit` and `take`: a call that has to wait returns, and the caller calls again.
- Blocking library scans as a loop of calls: the scan is a step machine in `Pipeline`, one turn of admission per step.
- Symbolic links inside the snapshot model: native mode refuses to follow them; in the queue they may be retargeted at any time.
- Liveness: which step comes next is never promised, so progress is stated per pop and per step.
- Convergence.SecondPassRests: snapshot rows are not part of the state that it calls unchanged; that a second reading of a quiet library changes none is `Rereading.RereadingStoresNothing`.
- Settling.SidecarsSettle: each listing has a stem's files in the order of their names, whatever that order is.
- Worlds.World.Fetch: any answer of a lookup; `Gate.Client.Fetch` says what the answers mean, and `Lookups` what that makes of a commit.
- Worlds.World.StoreRow: what the queue makes of a submitted directory is the matter of `WorkQueues`, and the two are not one state.
- Worlds.World.Relink: whether a rename moves the change time is left open, but the new name never shows a stamp that it showed before.
- Worlds.World.Eligible: each question has its own answer, and the one before a check leaves no moment in the history.
- Pipeline.NoChangeIsLost: a renamed directory's own walk is dispatched but its entries are not tracked one by one.
- Processor.ProcessGroup: the listing order of the files of a group is arbitrary instead of sorted.
