# iscsi-s3, modelled and proved in Dafny

iscsi-s3 serves iSCSI volumes from an S3 bucket through three layers: a write-back cache with
a background put queue, a whole-chunk LRU shared by all volumes, and a chunk store with a
legacy layout and a copy-on-write one. Each layer has to behave like a flat array of `capacity`
bytes. This project models the layers, and the bulk operations and stored formats around
them, and proves that they do: over every interleaving, every run and every point at which a
request can fail or the process can stop. Where the code does not keep a promise, the project
has a concrete input that shows it and the exact condition under which it does.

`dafny verify dfyconfig.toml` checks all of it.

## How it is organised

- `Volume`, `Totals`, `Numerals`: chunks against flat arrays, sums over maps, big-endian
  integers and hex. All chunk arithmetic is here.
- `WriteBackState`, `WriteBackSteps`: the write cache as a state machine. Its steps are the
  lock-held regions of `src/write_cache.rs`; writer, worker and admin each have a program
  counter, so every state between two regions is a state of the model.
  `WriteBackInv`, `WriteBackView`, `WriteBackOrder`, `WriteBackRecovery` are what each step
  keeps, `WriteBackDisk` what it does to the array a restart would find, `WriteBack` the
  theorems over runs. `WriteBackPause` is the pause and park handshake over runs,
  `WriteBackFifo` the order of the queue, `WriteBackProgress` that writes and flushes can
  return, `WriteBackTidy` what no run leaves behind. `WriteBackReads` puts a read among the
  steps, `WriteBackRestart` goes from the machine's files to the directory and through a
  restart, `WriteBackRace` holds the runs in which something is lost or stuck.
- `WriteCache`: the same shared state as objects updated in place; each method is one region
  and is proved to perform the machine's step. `WriteCachedStore`: the store without a queue,
  with its loops, as one thread runs it. `DiskCache`: the directory of chunk files.
- `CasWrites`: any number of daemons writing one chunk with If-Match, following sections
  8.8.1, 13.1.1 and 15.5.13 of RFC 9110.
- `CowBucket`, `CowInvariant`, `CowStore`: the copy-on-write bucket, what every request keeps,
  and the store with writes, snapshots, restore and garbage collection. `Deployed` shows that
  the repository's codec framing and formats meet the store's hypotheses.
- `Migration`, `MigrationRuns`: the move from the legacy layout, one attempt and any number.
- `MemoryStore`, `Bulk`: the chunked store; copy with resume, seed and export.
- `ChunkCache`, `CachedStore`, `CachedRun`: the LRU pool, a store behind it, several volumes
  on one pool.
- `SnapshotFormat`, `Compression`: stored bytes and names, read and written. `Layout`: the
  same bytes and names position by position.

## How failures and hashes are modelled

Foreign I/O is a map with atomic get, put, put-if-match, delete and list. A put may be lost,
and it may take effect and still be reported as failed. Stopping the process is a lost next
request, so a statement about every way a call can end is a statement about every state
between two of its requests. `CowStore` also records every state its bucket has been in.

Runs of the write cache are not cut to those that go well. What happens to the array an
initiator reads, and to the array a restart would find, is a list of events: the patch of a
write, a range that falls to another copy of its chunk, everything sinking to the inner
store. The theorems are that these lists, replayed, are the two arrays, for every run. A fall
is in the list iff it changes the array, and the guard under which a step adds one is the
condition for losing something.

Nothing assumes that the content hash is injective. `Safe`, that every pointer and every
record of every `chunks.bin` names an object whose body hashes to its name, holds whatever
the hash does. Statements about content hold unless two of the bodies put in that run
collide, which is a condition on the finite set of those bodies.

## What turned out not to hold, and when it does

- A flush empties the maps before it stores. If a put then fails, what it had drained is
  gone from what is read, iff one of the chunks is not in the inner store (`FailedFlushIff`).
  On disk it is still there, until the next write to such a chunk puts its own file over it;
  that loses what the disk had iff the two copies differ outside the patch
  (`PersistFollows`). `FailedFlushLoses` is a run that loses an acknowledged write both ways.
- A flush or discard that fails returns without lifting the pause. The worker then stays
  parked until a later one succeeds (`PausedIff`, `UnparksIff`; `FailedFlushParks` is a run).
  Meanwhile a write over budget whose oldest chunk the queue does not admit never returns, and
  the flush that would lift the pause waits for it (`BlockedForGood`; `FailedFlushBlocks` is a
  run). Nothing else can make a write get stuck (`WriteMayReturn`).
- While a flush drains, reads go to the inner store alone. They show what was written iff
  every chunk still to be put is already stored (`DrainViewIff`, `FlushHidesWrite`).
- `finish_put` looks at the queue and at the dirty map one after the other, and
  `evict_into_buffer` takes no file lock. A newer copy that moves from dirty to queue in
  between loses its file. `UnlinkLoses` is the exact condition, `RaceHappens` a run.
- Two first writes to a chunk that has no key, or only one of the older flat form, lose one
  of them (`AbsentLoses`, `ReplaysIff`).
- A migration interrupted between deleting the sharded key and the flat key of one chunk ends
  with the flat body. That matters iff the two differ (`StaleRun`, `IntactIff`).
- Garbage collection skips a `chunks.bin` it cannot read and may then delete what that
  snapshot needs (`SkippedListsIff`, `SkippedListLoses`).
- A resumed copy is exact iff the chunks it skips were right, and a seed iff the volume was
  zero under the blank chunks (`Bulk.CopyVolume`, `Bulk.SeedImage`).
- The frame's 32-bit length makes longer chunks unreadable (`FrameInverts`), several names
  parse to one hash or index (`PlusNameIsAnother`, `PlusIsZero`), and eviction stops taking the least recently
  written chunk once the 64-bit tick wraps while chunks are dirty (`EvictionOrderIff`).

## Model

| member | source | states |
|---|---|---|
| `WriteBack.RunReplaysJournal` | src/write_cache.rs:414-868 | Every interleaving of writer, worker and admin, failing flushes and discards included: the array (the view, or while a flush drains what it set out to store) is the journal replayed in order, which is every inserted patch, cut only by those discards and failing flushes that let go of a chunk not yet stored; there it becomes the inner store |
| `WriteBack.StepLogical` | src/write_cache.rs:565-868 | Every step, failing or not, changes that array by its own events alone: an insertion by its patch, a discard and a failing flush by sinking to the inner store, every other step by nothing; and it is patches only iff nothing unstored was let go |
| `WriteBack.DrainViewIff` | src/write_cache.rs:453-467 | In every state in which a flush drains, what reads return is the written array iff every chunk it has not yet put is already what the inner store shows |
| `WriteBack.FailedFlushIff` | src/write_cache.rs:453-467 | A flush that fails leaves the array as written iff every chunk it had drained and not dealt with is what the inner store shows; otherwise the array is the inner store |
| `WriteBackRace.FailedFlushLoses` | src/write_cache.rs:453-467 | A run from an empty cache under an accepted configuration: a flush fails, a write to another byte of the same chunk follows, and the earlier acknowledged write is gone from what is read and from what a restart would find |
| `WriteBackRace.FlushHidesWrite` | src/write_cache.rs:453-467 | A run from an empty cache under an accepted configuration: in the middle of a flush an initiator reads zeros where a write has been acknowledged |
| `WriteBackReads.ReadShowsView` | src/write_cache.rs:390-412 | A read among all other steps: with any steps of any thread between its lookups of dirty map, queue and inner store, each chunk it returns is one the view showed at some moment between the first lookup and the last |
| `WriteBackView.InsertSplices` | src/write_cache.rs:421-434 | The insertion step of `write_at` changes exactly the patched bytes of the flat view |
| `WriteBackView.WorkKeepsView` | src/write_cache.rs:725-868 | Handoff, job pickup, abort, inner put (also a failed one) and completion leave the overlay view as it is |
| `WriteBackView.EvictKeepsView` | src/write_cache.rs:658-723 | Eviction, into the queue or straight to the inner store, leaves the overlay view as it is |
| `WriteBack.WriteReturns` | src/write_cache.rs:414-442 | A write that returns Ok has spliced exactly its bytes into the array it began with and leaves the dirty bytes within a non-zero budget; one that fails has spliced a prefix; one out of range has changed nothing |
| `WriteBack.RunAccounting` | src/write_cache.rs:36-187 | In every reachable state both byte counters are the sums of what is held, the queue order is a duplicate-free listing of the queued chunks with the one in flight first, and the queue is within its budget |
| `WriteBack.StepInv` | src/write_cache.rs:414-868 | Every step of every thread keeps the invariant: accounting, who may be where at the same time inside and outside of a flush or discard, and what each thread's program counter knows. What the pause flag is outside of them is `WriteBackPause.PausedIff` |
| `WriteBack.FlushReturns` | src/write_cache.rs:453-467 | A flush that returns Ok leaves dirty and queue empty and the inner store equal, byte for byte up to the capacity, to the view at the moment exclusivity was gained, after any put in flight has finished. That the worker then goes on is `WriteBackPause.UnparksIff` |
| `WriteBackPause.PausedIff` | src/write_cache.rs:544-563 | Over every run from a start: a flush or discard about to return has lifted the pause iff it returns Ok, and outside of them the worker is paused iff there is a queue and the last of them to end gave up |
| `WriteBackPause.UnparksIff` | src/write_cache.rs:817-834 | Outside of a flush or discard a parked worker can go on iff the last of them to end did not give up; so in a run in which none gave up it always can |
| `WriteBackPause.PauseStopsPuts` | src/write_cache.rs:289-303 | From any point with the pause set, over any steps before it is lifted: the worker makes at most the one put it had begun, and once parked it stays parked |
| `WriteBackRace.FailedFlushParks` | src/write_cache.rs:453-465 | A run from an empty cache under an accepted configuration: a flush fails, and outside of any flush the worker is parked and cannot go on |
| `WriteBackPause.BlockedForGood` | src/write_cache.rs:683-723 | A write over budget under such a pause, whose oldest chunks the queue does not admit: in every run from there it stays where it is and nothing is put; the only step anyone can take is to ask for exclusivity in vain |
| `WriteBackRace.FailedFlushBlocks` | src/write_cache.rs:453-723 | A run from an empty cache under an accepted configuration reaches that state: one failed flush and two writes |
| `WriteBackPause.BlockedAfterGivingUp` | src/write_cache.rs:453-723 | That state is reached only after a flush or discard that gave up |
| `WriteBackProgress.WriteMayReturn` | src/write_cache.rs:414-442 | Over every run, whenever a write is under way and the last flush or discard to end did not give up: there is a way on in which it returns Ok, whatever all threads are doing, if the queue has room for one chunk |
| `WriteBackProgress.SectionMayReturn` | src/write_cache.rs:524-563 | Over every run, a flush or discard that has asked for exclusivity can still return Ok: once it has it, always, also after one that gave up; before, whenever the write it waits for can return |
| `WriteBackFifo.RunInTurn` | src/write_cache.rs:53-67 | Over every run the queue lists its chunks by the step at which each was last handed over, by eviction or by handoff |
| `WriteBackFifo.HandedFirstStandsFirst` | src/write_cache.rs:53-67 | Of two chunks that have not left the queue since they were handed over, the one handed over first stands first |
| `WriteBackFifo.NextJobIsFirst` | src/write_cache.rs:749-764 | Over every run the worker takes the chunk that was handed over longest ago of all that are queued |
| `WriteBackFifo.PushedIsLast` | src/write_cache.rs:53-67 | A pushed chunk stands behind every other one, also if it was queued before, and the others keep their order among themselves |
| `WriteBackFifo.RemovedIsGone` | src/write_cache.rs:69-79 | A removed chunk is gone from map and order, the put in flight ends iff it was of that chunk, and the others keep their order |
| `WriteBackTidy.NoFileLeft` | src/write_cache.rs:585-605 | Over every run in which no unlink fails and no flush or discard gives up: every chunk file belongs to a chunk held or about to be unlinked, and a flush or discard that has dealt with its last chunk has left none |
| `WriteBackTidy.RunTails` | src/write_cache.rs:607-625 | Over every run no copy held gets a byte past the capacity that is not zero, whatever the inner store has there, and neither does the inner store if it had none |
| `WriteBackTidy.GrowthShowsZeros` | src/write_cache.rs:448-451 | After every run from such a start, growing the capacity over what the inner store has appends zeros to the array |
| `WriteBackTidy.EvictsOldestOverBudget` | src/write_cache.rs:658-716 | Every eviction of every run happens under a non-zero budget that the dirty bytes exceed, and takes the chunk whose last write is longest ago as long as the tick has not passed 2^64 |
| `WriteBack.DiscardForgets` | src/write_cache.rs:289-303 | From the point where `discard_dirty` returns, with both maps empty: over any later run and for each chunk, the inner store takes no put, or one of a copy inserted after that point |
| `WriteBack.RunPuts` | src/write_cache.rs:627-796 | Over any run and per chunk, no put to the inner store is older than one before it |
| `WriteBack.DirtyIsNewest` | src/write_cache.rs:147-161 | In every reachable state a dirty copy is strictly newer than the queued snapshot of its chunk, and neither is older than what the inner store has taken |
| `WriteBack.EvictionOrderIff` | src/write_cache.rs:147-178 | Whatever is dirty with insertion numbers in a given window, the chunk of lowest 64-bit tick is the least recently written one iff the window passes no multiple of 2^64 |
| `WriteBack.CrashRecovers` | src/write_cache.rs:585-625 | Disk mode, a crash after any step of any run, without exception: files over the inner store are the disk journal replayed, and the patches in it are those inserted, in the same order, plus at most the one whose file is written ahead of its insertion |
| `WriteBack.StepDisk` | src/write_cache.rs:585-868 | Every step, failing or not, changes what a restart would find by its own events alone, and by patches only iff no range falls |
| `WriteBackDisk.PersistFollows` | src/write_cache.rs:421-434 | Writing the file of a patched chunk over whatever the disk showed applies the patch to the recoverable array iff the copy that was loaded and the one on disk agree below the capacity outside the patch; otherwise the chunk first falls to the loaded copy |
| `WriteBack.LosslessCrash` | src/write_cache.rs:585-625 | If no range fell in a run, a crash recovers every inserted patch in order, plus at most the one in hand, also after flushes that failed |
| `WriteBack.PlainIsLossless` | src/write_cache.rs:585-868 | No range falls in a run without the unlink race, without a flush or discard that fails and without files dropped by a discard |
| `WriteBack.CrashRecoversWithoutQueue` | src/write_cache.rs:658-681 | Without the put queue, for every run and schedule, a crash recovers the disk journal; with no discard and no failing flush in the run, no range falls in it, and that is every inserted patch in order plus at most the one in hand |
| `WriteBack.NoQueueNoRace` | src/write_cache.rs:817-868 | Without the put queue no run takes a step of the worker, so none takes the race |
| `WriteBack.RestartFindsWrites` | src/write_cache.rs:202-277 | Run, crash after any step, restart, with or without the queue: the start is a proper initial state and the initiator reads the disk journal replayed |
| `WriteBackRestart.RestartFromDirectory` | src/write_cache.rs:892-979 | From the directory: run, crash after any step or between the two halves of writing a file, restart; loading cannot fail and the initiator reads the disk journal replayed |
| `WriteBackRestart.RunHolds` | src/write_cache.rs:585-605 | Over every run the directory, changed by the file operation of each step, holds exactly the chunk files of the machine |
| `WriteCache.Recover` | src/write_cache.rs:202-277 | Refuses a directory iff a considered file has another length; otherwise the dirty map is what the directory holds |
| `WriteCache.FromRecovered` | src/write_cache.rs:139-145 | The recovered chunks, inserted one by one in any order, are the dirty map, counted and numbered from one |
| `WriteBackDisk.RecoversView` | src/write_cache.rs:585-625 | Outside a drain, chunk by chunk: a restart would find the view, plus the one file written ahead; a chunk left over by a failing flush shows its old file, one hit by the race the inner store |
| `DiskCache.PersistIsAtomic` | src/write_cache.rs:892-910 | A crash between writing aside and renaming leaves the old chunk for a restart to find, one after them the new one |
| `DiskCache.LoadDiskCache` | src/write_cache.rs:951-979 | Loads the index of every considered file with the bytes of one of that index, and errs iff one of them has another length |
| `DiskCache.LoadsWhatIsHeld` | src/write_cache.rs:951-979 | What was persisted is what loading finds, whatever else is in the directory |
| `WriteBackDisk.UnlinkLoses` | src/write_cache.rs:778-793 | The second check of `finish_put` loses recoverable bytes iff, between its two checks, a newer copy of the chunk moved from dirty to queue, has its file, and differs below the capacity from what the inner store shows |
| `WriteBackRace.RaceHappens` | src/write_cache.rs:683-796 | A run from an empty cache under an accepted configuration reaches that state: an acknowledged write is visible, nobody is writing, and a crash recovers the older version |
| `WriteBackDisk.RecoversDrain` | src/write_cache.rs:453-467 | A crash while a flush drains recovers what the flush set out to store, chunk by chunk, except chunks already out of step with their files |
| `WriteBackDisk.FailedFlushRecovers` | src/write_cache.rs:453-467 | A flush that fails lets go of what it had drained, but in disk mode a crash then recovers all of it, except chunks already out of step with their files |
| `WriteCache.DirtyState.Insert` | src/write_cache.rs:147-161 | Performs the machine's insertion: the new copy under the next, wrapping, tick and the bytes recounted |
| `WriteCache.DirtyState.Remove` | src/write_cache.rs:163-167 | Performs the machine's removal and returns the data that was held |
| `WriteCache.DirtyState.Oldest` | src/write_cache.rs:173-178 | Finds a chunk of lowest tick, and none iff there is none |
| `WriteCache.DirtyState.OldestQuiet` | src/write_cache.rs:180-186 | Finds, among the chunks quiet long enough, one written longest ago, and none iff no chunk is quiet |
| `WriteCache.BufState.Push` | src/write_cache.rs:53-67 | Performs the machine's push, of which `WriteBackFifo.PushedIsLast` says what it does to the order: behind all others, once, bytes recounted |
| `WriteCache.BufState.Remove` | src/write_cache.rs:71-79 | Performs the machine's removal, which also ends a put in flight of that chunk |
| `WriteCache.BufState.Retain` | src/write_cache.rs:65-65 | The order without one index, the others in place |
| `WriteCache.Core.EvictOne` | src/write_cache.rs:683-716 | One locked region of `evict_into_buffer`: nothing to do iff within budget or empty; otherwise the chunk of lowest tick moves iff the queue admits it, and if it does not, that chunk is the reason and nothing changes |
| `WriteCache.Core.HandoffQuiet` | src/write_cache.rs:725-747 | Nothing to do iff no chunk is quiet; otherwise the quiet chunk written longest ago moves iff the queue admits it, and if it does not, nothing changes |
| `WriteCache.Core.NextJob` | src/write_cache.rs:749-764 | Takes the front of the queue iff no put is in flight, and marks it in flight |
| `WriteCache.Core.ClearInflight` | src/write_cache.rs:766-773 | Ends the put in flight of this chunk and of no other |
| `WriteCache.Core.CompletePut` | src/write_cache.rs:775-791 | First region of `finish_put`: the chunk leaves the queue iff the put succeeded and the queued generation is still the one that was put |
| `WriteCache.Core.TakeAllJobs` | src/write_cache.rs:627-656 | Empties both maps into one job per chunk, in which the dirty copy wins over the queued one |
| `WriteCachedStore.SeenInsert` | src/write_cache.rs:425-433 | A patched chunk made dirty is, on the flat array, a splice |
| `WriteCachedStore.SeenEvict` | src/write_cache.rs:607-616 | A dirty chunk put below and dropped leaves the flat array as it was, also for a partial last chunk |
| `WriteCachedStore.WriteCachedStore.ReadAt` | src/write_cache.rs:390-412 | Reads the slice of the flat array, from dirty chunks and from below; fails only out of range or if a call below fails |
| `WriteCachedStore.WriteCachedStore.WriteAt` | src/write_cache.rs:414-442 | Splices the flat array, and if a read, file write, put or unlink fails, a prefix of it by whole chunk pieces; Ok leaves the dirty bytes within a non-zero budget |
| `WriteCachedStore.WriteCachedStore.EvictDirect` | src/write_cache.rs:658-681 | Evicts to the budget, or until a call fails, and changes nothing of the flat array either way; every dirty chunk keeps its file |
| `WriteCachedStore.WriteCachedStore.Flush` | src/write_cache.rs:453-467 | Empties the dirty map first; Ok leaves the store below equal to the flat array seen before; a failing flush leaves the array of the store below, and names the chunks whose loss is the difference and whose files are all still there |
| `CasWrites.RunInv` | src/store/s3.rs:1330-1385 | For every run of any number of daemons on a chunk whose key exists: the chunk is the patches of the puts that took effect, applied in put order, unless two bodies collide |
| `CasWrites.StepSteps` | src/store/s3.rs:1339-1375 | Every request keeps the invariant; only a put whose If-Match held changes the chunk, and it applies its patch to what the previous put left |
| `CasWrites.GivingUpPutsNothing` | src/store/s3.rs:1361-1375 | A write that ends in plain failure has put nothing |
| `CasWrites.EightRefusals` | src/store/s3.rs:1342-1375 | For every run and daemon, on events: a write all of whose requests were answered and whose reads found what they were sent to has failed iff exactly eight of its puts since it began met a key with another tag; there is never a ninth, and fewer than eight have not failed it |
| `CasWrites.ReadsFind` | src/store/s3.rs:1346-1351 | In a run that starts from a stored chunk under an existing key no read is ever sent to a missing body, so the second of those conditions always holds |
| `CasWrites.RetrySucceeds` | src/store/s3.rs:1342-1375 | A write refused for less than the eighth time and then left alone succeeds: it reads again, and its next put matches and adds its patch to the log |
| `CasWrites.WholeNeverRefused` | src/store/s3.rs:1346-1351 | In every run a put of a whole chunk asks for no tag and is never refused |
| `CasWrites.PutEnds` | src/store/s3.rs:1350-1375 | A put that takes effect ends its write, with success or with its answer lost |
| `CasWrites.AbsentLoses` | src/store/s3.rs:1343-1351 | With no key to match, whether nothing or an older flat key is under it, two first writes of parts of the chunk lose one of the two: a run that shows it, for every chunk size above one |
| `CasWrites.ReplaysIff` | src/store/s3.rs:1330-1385 | In the legacy layout all runs replay their puts in order iff the key exists or a chunk is one byte |
| `CowBucket.AddObjectSafe` | src/store/s3.rs:742-750 | A put under the content hash keeps every reference resolving to a body that hashes to its name, whatever the hash does |
| `CowBucket.DropManifestIff` | src/store/s3.rs:905-911 | Deleting a manifest leaves everything stored listed and resolving iff its `chunks.bin` is gone |
| `CowBucket.DropObjectSafe` | src/store/s3.rs:1125-1131 | Deleting an object that no live pointer and no `chunks.bin` names keeps every reference resolving |
| `CowBucket.SameChunks` | src/store/s3.rs:742-750 | References that resolve before and after any change of the pool stand for the same chunks, unless two of the bodies ever put collide |
| `CowBucket.StoredInvert` | src/snapshot.rs:81-211 | Object names, pointers and `chunks.bin` as stored invert, which is all the store's proofs ask of them |
| `CowInvariant.GoodPutObject` | src/store/s3.rs:742-748 | The put of a payload keeps the bucket safe and what volume and snapshots mean |
| `CowInvariant.GoodPutPointer` | src/store/s3.rs:749-750 | The put of a pointer keeps the bucket safe and changes the meaning of that chunk only |
| `CowInvariant.GoodPutBin` | src/store/s3.rs:818-821 | The put of a `chunks.bin` whose records all resolve keeps the bucket safe and adds that snapshot's meaning only |
| `CowInvariant.GoodDeleteObject` | src/store/s3.rs:1125-1131 | The deletion of an unreferenced object keeps the bucket safe and every meaning |
| `CowStore.ReadChunkOk` | src/store/s3.rs:697-718 | In a safe bucket every chunk reads without error, as what is meant to be there unless two bodies collide |
| `CowStore.ReadsStored` | src/store/s3.rs:697-718 | In any bucket: what is read under a pointer is the decoded body stored under the name it gives, so a missing object or a bad pointer is an error and never zeros; without a pointer it is zeros |
| `CowStore.CowStore.Send` | src/store/s3.rs:662-695 | One request to the bucket: done, lost, or done and reported as failed; every state the bucket has been in stays recorded as safe |
| `CowStore.CowStore.ReadAt` | src/store/s3.rs:1312-1328 | Reads the slice of the flat array, unless two bodies collide; fails only out of range or if a read of the bucket fails |
| `CowStore.CowStore.WriteAt` | src/store/s3.rs:1330-1385 | Splices the flat array; a write in which a read or a put fails has spliced a prefix of whole chunk pieces; snapshots are untouched |
| `CowStore.CowStore.WriteChunk` | src/store/s3.rs:720-752 | Object first, then pointer: the chunk is patched or as it was, at whichever read or put the network fails |
| `CowStore.CowStore.DeleteChunk` | src/store/s3.rs:1441-1444 | Removes one pointer and wipes that chunk only |
| `CowStore.CowStore.SetCapacity` | src/store/s3.rs:1391-1418 | Refuses shrinking and partial blocks; growing appends zeros and stores the new capacity |
| `CowStore.CowStore.SnapshotCreate` | src/store/s3.rs:790-832 | Refuses bad and existing ids; otherwise manifest, list, manifest: wherever it stops there is nothing, a manifest that says Creating with or without the list, or a manifest that says Ready over a list of exactly the live pointers; volume, objects and other snapshots untouched |
| `CowStore.CollectLiveRefs` | src/store/s3.rs:776-787 | Lists every live pointer once |
| `CowStore.CowStore.SnapshotRestore` | src/store/s3.rs:914-958 | Accepts only a manifest that says Ready with the chunk size, block size and compression of the volume, and names the error of each check that fails; when it ends, the live pointers are exactly the snapshot's and the capacity is the larger of the two; wherever it stops, objects and snapshots are untouched |
| `CowStore.UnfinishedNotRestored` | src/store/s3.rs:914-922 | A creation that stopped before its last manifest, then any run that does not delete what it left: a restore is refused |
| `CowStore.IdCodes` | src/store/s3.rs:1203-1216 | A snapshot id is accepted iff it is 1 to 128 characters with the codes of ASCII letters, digits, dash, dot and underscore, so it is one level of a key |
| `CowStore.CowStore.RestoreAgain` | src/store/s3.rs:914-958 | Any interrupted restore followed by a full one ends with the same pointers as one uninterrupted restore |
| `CowStore.RestoredView` | src/store/s3.rs:927-931 | A restored volume is the snapshot's bytes up to its capacity and zeros beyond |
| `CowStore.SnapshotThenRestore` | src/store/s3.rs:776-958 | A snapshot, any run that does not delete it, and a restore: the volume is again what it was at creation, with zeros where it has grown |
| `CowStore.CowStore.CollectGarbage` | src/store/s3.rs:1100-1136 | With any set of lists that cannot be read: what is left is exactly what live pointers and the other lists name; a run that fails has deleted only others; the count is exact; the volume and its snapshots stay intact if the skipped lists name nothing that is not named elsewhere |
| `CowStore.CowStore.CollectAll` | src/store/s3.rs:1100-1136 | With every list read: the volume and its snapshots stay intact, and what is left are exactly the objects something names |
| `CowStore.MarkAll` | src/store/s3.rs:1102-1114 | Marks exactly the hashes that live pointers and the lists that are read name |
| `CowStore.SkippedListsIff` | src/store/s3.rs:1108-1114 | What such a collection leaves is safe iff everything the skipped lists name is also named elsewhere |
| `CowStore.SkippedListLoses` | src/store/s3.rs:1108-1114 | A safe bucket with one ready snapshot of a chunk the live volume no longer has: with its list skipped, the collection deletes the chunk and the bucket is not safe |
| `CowStore.CowStore.SnapshotDelete` | src/store/s3.rs:905-911 | Removes that snapshot only; ended, every object left is named by something that remains |
| `CowStore.CowStore.Run` | src/store/s3.rs:697-1136 | Any run of writes, deletes, growth, snapshot create, delete and restore and quiesced collection, with any request failing any way: every state passed through is safe, and a snapshot not deleted keeps list, manifest and, unless two bodies collide, content |
| `CowStore.KeptConstant` | src/store/s3.rs:790-958 | A snapshot whose list is kept has constant content between any two states of a run, unless two bodies collide |
| `Deployed.RepositoryUsable` | src/compression.rs:52-114 | The repository's framing below 2^32 bytes and its stored formats meet what the store's proofs ask of codec and formats |
| `MigrationRuns.RunServes` | src/store/s3.rs:261-347 | After any number of attempts, each stopped at any put or delete, also repeated after a commit that landed with an error: if opening serves the volume, it reads, chunk for chunk, as the original legacy volume. When opening serves, resumes or refuses is `MigrationRuns.RunOpens` |
| `MigrationRuns.RunOpens` | src/store/s3.rs:261-347 | After any attempts and for every configuration: until one has committed, opening with the legacy geometry resumes iff an attempt has begun and else serves legacy; from then on, with the committed geometry, it serves copy-on-write; another layout or geometry is refused as a mismatch and a smaller capacity as shrinking |
| `MigrationRuns.OpensNew` | src/store/s3.rs:345-345 | A bucket without metadata or marker is served in the configured layout |
| `MigrationRuns.OpensUntouched` | src/store/s3.rs:331-344 | An untouched legacy volume is served as legacy with its own configuration, and refused as copy-on-write |
| `MigrationRuns.OpensMigrated` | src/store/s3.rs:1080-1098 | After an attempt without failures the legacy metadata and the marker are gone, and the volume is served as copy-on-write with the metadata committed and refused as legacy |
| `MigrationRuns.ReadsAsCow` | src/store/s3.rs:697-718 | A migrated volume is read as the copy-on-write store reads its bucket |
| `MigrationRuns.RunInv` | src/store/s3.rs:1029-1098 | Every attempt, stopped anywhere and repeated even after a commit that landed, leaves each chunk under an untouched legacy key or moved with its original body, and has committed only when all have moved |
| `MigrationRuns.MigrationFinishes` | src/store/s3.rs:1029-1098 | One attempt without failures, after any that failed, commits, and the copy-on-write view is the original legacy view |
| `MigrationRuns.IntactIff` | src/store/s3.rs:1047-1070 | Every schedule of interruptions ends with the original bodies iff no chunk has a sharded and a flat key with different bodies |
| `MigrationRuns.StaleRun` | src/store/s3.rs:1050-1068 | Where they differ, two attempts suffice to end with the stale flat body |
| `Migration.Migrator.MigrateToCow` | src/store/s3.rs:1029-1098 | The loop goes through the listed chunks in ascending order and performs the specified attempt, request by request; it switches mode iff it commits, and then returns how many chunks were listed |
| `Migration.PlanCapacity` | src/store/s3.rs:1245-1309 | Refuses iff the stored geometry differs or the capacity would shrink, with the error for which; otherwise the configured capacity, and metadata to write iff it is new or grown |
| `ChunkCache.Pool.Put` | src/cache.rs:153-190 | Keeps the longest most-recently-used run that fits beside the new chunk, which joins iff it fits at all; bytes exact and within budget; ticks distinct |
| `ChunkCache.Pool.EvictFor` | src/cache.rs:162-177 | Eviction leaves exactly that run, with one entry fewer each turn |
| `ChunkCache.Pool.Get` | src/cache.rs:137-151 | Returns the cached bytes and makes the entry the most recent one |
| `ChunkCache.Pool.SetMaxBytes` | src/cache.rs:72-99 | Keeps the longest most-recently-used run that fits the new budget; zero keeps nothing |
| `ChunkCache.Pool.InvalidateVolume` | src/cache.rs:109-121 | Drops all entries of one volume and no other, bytes recounted |
| `ChunkCache.Pool.Enable` | src/cache.rs:129-135 | Starts cold with the given budget or the last one that was not zero |
| `ChunkCache.LongestRunUnique` | src/cache.rs:162-177 | Ticks and sizes alone determine what eviction leaves |
| `CachedStore.CachedStore.LoadChunk` | src/cache.rs:266-290 | Returns the chunk as the store has it, padded with zeros past the capacity, and refuses when locked or past the capacity; afterwards it is the most recent one in the pool if it fits there at all, and a hit drops nothing |
| `CachedStore.CachedStore.PatchCached` | src/cache.rs:311-331 | A chunk found in the pool is patched there and stays; the pool holds the same chunks as before |
| `CachedStore.CachedStore.ReadAt` | src/cache.rs:294-309 | Reads exactly what the store below would read |
| `CachedStore.CachedStore.WriteAt` | src/cache.rs:311-331 | Writes the store below and leaves every cached chunk equal to it |
| `CachedStore.CachedStore.SetCapacity` | src/cache.rs:337-340 | Growth keeps every cached chunk right because bytes past the capacity are zero |
| `CachedStore.CachedStore.DeleteChunk` | src/cache.rs:360-365 | Wipes the chunk below and drops it from the pool |
| `CachedStore.CachedStore.LockIo` | src/cache.rs:247-250 | Refuses requests from then on and drops the volume's entries |
| `CachedRun.Host.Serve` | src/cache.rs:247-366 | Any sequential run of requests on several volumes sharing one pool, with budget changes, invalidations, locks, deletes and growth, gets the answers plain flat arrays would give |
| `Volume.CheckRange` | src/store/mod.rs:50-71 | Accepts exactly the ranges that end within the capacity, also where the sum exceeds 64 bits |
| `Volume.FlatSplice` | src/store/memory.rs:61-79 | Patching one chunk patches the flat array and moves no other byte |
| `MemoryStore.Store.New` | src/store/memory.rs:20-39 | Creates a zero volume iff the geometry is sound |
| `MemoryStore.Store.ReadAt` | src/store/memory.rs:43-59 | Fills the buffer slice with the slice of the flat array and touches nothing else |
| `MemoryStore.Store.WriteAt` | src/store/memory.rs:61-79 | Splices the flat array for every offset, length and chunk size, and adds exactly the chunks touched |
| `MemoryStore.Store.SetCapacity` | src/store/memory.rs:85-100 | Grows by whole blocks only; the new bytes are zero |
| `MemoryStore.Store.PresentChunks` | src/store/memory.rs:114-118 | Lists the present chunks in ascending order |
| `MemoryStore.Store.DeleteChunk` | src/store/memory.rs:120-123 | Removes that chunk only |
| `Bulk.CopyVolume` | src/admin.rs:594-685 | Ends with no chunk the source has not, and with the source's bytes iff every chunk skipped by `resume_from` was already right; a run that fails at a chunk has copied exactly those below it, one that fails at a delete or the flush, all; the counts are exact |
| `Bulk.CopyWithResume` | src/admin.rs:594-685 | However often a copy fails, at chunks, deletes or the flush, and is run again from the chunk it named, the run that ends leaves a full copy |
| `Bulk.DeleteOthers` | src/admin.rs:660-675 | Deletes every destination-only chunk and leaves the others; stops iff one of those deletes fails, with the others still as they were |
| `Bulk.SeedImage` | src/admin.rs:307-358 | The volume starts with the image iff it was zero under every skipped blank chunk; the rest is untouched; all four counters are exact; short input and a failing write are errors that leave a prefix seeded |
| `Bulk.ExportImage` | src/admin.rs:1188-1226 | Returns the first bytes of the flat array, or an error past the capacity |
| `Bulk.SeedThenExport` | src/admin.rs:307-358 | Seeding an empty volume and exporting the same size gives the image back |
| `SnapshotFormat.PointerIff` | src/snapshot.rs:81-108 | Bytes decode to a hash iff they are that hash's pointer |
| `SnapshotFormat.NameIff` | src/snapshot.rs:114-159 | A name is a hash's object name iff it parses to the hash and is in lower-case form |
| `SnapshotFormat.PlusNameIsAnother` | src/snapshot.rs:149-159 | Parsing alone does not pin the name: a plus sign for a leading zero parses to the same hash |
| `SnapshotFormat.ParseHashHex` | src/snapshot.rs:149-159 | The loop over digit pairs accepts exactly the 64-character names that read back pair by pair |
| `SnapshotFormat.KeysRoundTrip` | src/store/s3.rs:164-199 | For every 64-bit index both key forms read back as it, are injective, and never collide |
| `SnapshotFormat.KeyIff` | src/store/s3.rs:173-199 | A canonical key that reads as an index is one of that index's two keys, and conversely |
| `SnapshotFormat.PlusIsZero` | src/store/s3.rs:179-199 | An index whose flat key starts with a zero has a second name that reads as it, with a plus sign for the zero |
| `Layout.FlatKeyDigits` | src/store/s3.rs:371-384 | Characters of a flat key by position: sixteen lower-case digits, most significant first |
| `Layout.ShardKeyDigits` | src/store/s3.rs:173-178 | Characters of a sharded key by position: the two low digits, a slash, the two above, a slash, the other twelve as in the flat key |
| `Layout.ObjectNameDigits` | src/snapshot.rs:114-132 | Characters of an object's name by position: the digits of the hash with a slash after each of the first two bytes |
| `Layout.PointerBytes` | src/snapshot.rs:81-108 | Bytes of a pointer by position: "ISCP", 1, the 32 bytes of the hash |
| `Layout.HeaderBytes` | src/snapshot.rs:161-175 | Bytes of the head of `chunks.bin` by position: "ISC3SNAP", version 1, the count most significant byte first; the whole file is 20 + 40 per record |
| `Layout.RecordBytes` | src/snapshot.rs:161-175 | Bytes of every record by position: eight of index, most significant first, then the hash |
| `SnapshotFormat.BinIff` | src/snapshot.rs:161-211 | A file reads as a list of references iff it starts with that list's encoding; later bytes are ignored |
| `SnapshotFormat.WriteChunksBin` | src/snapshot.rs:161-175 | Writes the specified encoding |
| `SnapshotFormat.ReadChunksBin` | src/snapshot.rs:177-211 | Accepts and rejects exactly as specified, for every byte string |
| `Compression.FrameInverts` | src/compression.rs:52-114 | A stored chunk reads back iff it is unframed or its length fits the 32 bits of the frame, given a codec that inverts |
| `Compression.DecodesIff` | src/compression.rs:76-114 | A framed body reads as a chunk iff it is the magic, the id of that algorithm, a byte of flags, the length asked for in 32 bits, and a body that the codec expands to the chunk |
| `Layout.FrameBytes` | src/compression.rs:26-72 | Bytes of the frame by position: "ISC3", 1, 2 or 3 for lz4, zstd and deflate, a zero, the length most significant byte first |
| `Compression.OtherAlgorithmRefused` | src/compression.rs:86-94 | A framed chunk is refused under any other framing algorithm |

## Left out

- The S3 client, Tokio, timeouts, paginated listing and metrics: foreign I/O, replaced by the map described above.
- lz4, zstd, deflate and BLAKE3: parameters with the hypotheses stated where they are used.
- Wake-ups of condition variables and fairness of the scheduler: a step is enabled when the condition the source waits for holds, and that a call can return is a run in which it does, not a bound on every run.
- WriteBackProgress.WriteMayReturn: asks that the queue's budget holds one chunk, which the configuration check demands.
- The stamp file of the disk cache, which refuses a directory of another volume or chunk size: one comparison.
- Starting and stopping the worker thread (a stop also ends the wait of a write over budget), and `delete_chunk` racing the worker (`src/write_cache.rs:798-815`): not steps of the machine. The eviction of a start is that of a write of no bytes. The flag `putting` is never read and is not modelled.
- At most one writer and one exclusive caller: `write_at` and `flush` take `&mut self` above this layer, and `with_exclusive` does not queue a second caller.
- Byte counters that saturate at 2^64 and ticks of the LRU that overflow: the counters here are unbounded where the source's would need 2^64 bytes or lookups.
- Handoff of the machine picks any dirty chunk, where the source takes the oldest one quiet for 100 ms; `WriteCache.DirtyState.OldestQuiet` has that choice.
- WriteBackReads.ReadShowsView: is about each chunk of a read; the chunks of one read may be shown at different moments, since no lock spans them.
- CowStore.CowStore.CollectGarbage: runs with no write in flight, as the source asks of its callers. A pointer or a listing that cannot be read ends the call before anything is deleted and is not modelled.
- CowStore.CowStore.SnapshotRestore: reads of the bucket succeed, as in the other snapshot operations; a read that fails ends them like a put that is lost.
- CowStore.CowStore.SnapshotCreate: asks for fewer than 2^64 live pointers, since the list's length is a 64-bit count.
- CowStore.CowStore.WriteAt: has one daemon, whose If-Match always holds; several are in `CasWrites`, for one chunk and an uncompressed body.
- CasWrites.RunInv: asks that the key exists and is not deleted during the run; `CasWrites.ReplaysIff` shows that the first cannot be dropped.
- MigrationRuns.RunServes: asks that two keys of one chunk agree; `MigrationRuns.IntactIff` shows that this cannot be dropped. Opening is the decision only: the rewrite of the metadata for a grown capacity is not combined with the attempts.
- Keys other than chunk and object names are structured, not strings, and manifests and metadata are values: the JSON is not modelled. Names are sequences of characters; slicing inside a multi-byte character is not modelled.
- Reads of a concurrent `CachedStore`: a miss can insert bytes read before another thread's write, so the pool is proved for sequential calls.
- `snapshot_clone_into`, `volume_wipe`, the rest of `src/admin.rs`, the control program, configuration, metrics, `src/perf.rs`, `src/device.rs` and the vendored iSCSI crate: adapters and one-branch checks around what is modelled, and, for the clone, a copy of pointers like the restore.
