# opendrive-bridge: verified core

A Dafny model of the parts of opendrive-bridge that can lose or corrupt a user's data,
with proofs of what they promise. `dafny verify dfyconfig.toml` checks it all. Nothing
here runs the bridge; the statements are about the model, which follows the Go code
branch by branch.

## What is modelled

**The write-back cache** (`objects`, `journal`, `disk`, `gateway*`, `datacache`, `slots`,
`paths`). For a while the cache is the only holder of a file. `gateway.dfy` is a step
system: every critical section and every file operation of a commit, a drop, a flush or a
read is one event, and a run is any sequence of enabled events. Events of different calls
interleave freely, with one exception: a path picked for a drop stays claimed until the drop
is through, which the code does not see to. `gateway_removal.dfy` adds removals as the code
makes them, entry, file and record each on its own and with no claim, any number of them in
any run, and says exactly what they take; `gateway_race.dfy` gives the inputs.
The directory and the journal each have a part that is permanent and a part a power cut may
take away, entry by entry and byte by byte. A crash may also be followed by another process,
any number of times, where it left the journal at the end of a record; a crash at any other
byte may end a run, and `journal.dfy` says what becomes of records appended after it.
`gateway_invariant.dfy` states, path by path, what every event keeps;
`gateway_theorems.dfy` and `gateway_allowance.dfy` draw the conclusions: durability across a
crash at any byte, agreement of journal and index, conservation of unsent data, clean only
if confirmed, and the dirty allowance. `datacache.dfy` is the cache itself, a class whose
fields are changed in place; each of its critical sections is proved to be an event of the
step system, and its byte counters are proved to be the sums they stand for. (There alone,
`Reaches` carries a guard `Asked` that always holds and only keeps the solver from
unfolding the history of an object whenever it meets one.)

**The transfers** (`offsets`, `uploads`, `transfers`, `downloads`). Protocols over lost
replies, partial writes and requests that arrive late or twice, with exact statements of
what the far end and the local file then hold.

**The job engine** (`jobs`, `engine`). The life of one job under a worker, any number of
Cancel calls, saves that overtake each other, and restarts; and the engine's loop over it.

**The smaller cores.** The path cache against the history of calls made on it
(`pathcache`); the request loop and the access probe (`retry`, `probe`); the credential
file, from quoting through PKCS#7 padding (section 6.3 of RFC 5652), chaining, base64
(section 4 of RFC 4648) and the header and key line (`text`, `envfile`, `base64`, `octets`,
`envelope`, `credentials`); and PBKDF2 (section 5.2 of RFC 8018) as loops over reused buffers
(`pbkdf2`).

## Where the code does less than its documents say

Each of these is kept as the code has it, with an input for which it shows and the exact
condition under which it does not.

- Unsent data can be dropped. Eviction, refresh and clearing choose an object under the lock
  and forget it after letting go (`internal/datacache/store.go:627-659`,
  `internal/datacache/writeback.go:463-474`, `internal/datacache/writeback.go:555-572`), and
  forgetting takes first the entry, then, with the lock let go again, the file, then records a
  drop (`internal/datacache/store.go:587-602`), each of whatever is there by then, against
  `internal/datacache/store.go:610-617`. For a commit followed from before its rename, among any
  number of removals and anything else: a crash gives its version back, with its bytes, iff no
  removal took the file after the rename and none recorded a drop after the commit's record
  (`GatewayRemoval.RecoveredExactly`), and the index has it iff no removal took the entry after
  it landed (`GatewayRemoval.KeptExactly`). Whenever a commit stands before its rename it can
  be split either way (`GatewayRemoval.FileLateLoses`, `GatewayRemoval.RecordLateLoses`). A file
  rewritten while it is evicted is an input, with all of the removal after the landing
  (`GatewayRace.RaceHappens`) or around the rename (`GatewayRace.SplitHappens`). The entry a
  removal takes is itself of unsent data iff a dirty commit landed since the pick and nothing
  has ended that version (`GatewayRace.EntryTakesUnsentExactly`).
- What is journalled after a crash can be lost in the next one. A torn journal is appended
  to where it ends (`internal/datacache/store.go:152-166`,
  `internal/datacache/journal.go:133-156`) unless it held more than 20000 records and is
  rewritten, so the first new record runs on in the torn line. Unless that line decodes, the
  new records are read back iff the crash cut the journal at a record boundary
  (`Journal.AppendedSurvivesExactly`); what is read in every case is
  `Journal.AppendedBehindCut`, and `Journal.LostBehindTornByte` is an input.
- A path normalised twice is not always the path normalised once, which
  `internal/datacache/durability_test.go:401-421` promises: `"x /"` becomes `"/x "` and
  then `"/x"` (`Paths.TwoPasses`). It is, exactly when no blank stands before the slash that
  is cut off (`Paths.IdempotentExactly`).
- A cancelled job can come back after a restart, although `internal/jobs/job.go:41-45`
  calls the state terminal: the worker's save of an older snapshot may land after the
  cancellation's (`Jobs.CancelledCanComeBack`). It stays cancelled over every further run
  iff the cancellation is stored and the worker has no snapshot of an earlier state on its
  way to the store (`Jobs.CancelledForGoodExactly`). Succeeded and failed jobs cannot come
  back (`Jobs.SettledForGood`).
- A Cancel call can be missed, although `internal/jobs/engine.go:269` says a running job is
  interrupted: once a transfer is back its cancel function is gone while the job still shows as
  running (`internal/jobs/engine.go:426-428`). Given that a transfer told to stop does stop, no
  further one is begun iff the call does not fall between the return of a transfer that is to
  be tried again and its requeueing (`Jobs.CancelStopsExactly`); `Jobs.CancelIsMissed` is an
  input.
- An upload whose source breaks inside a chunk, with no size declared, succeeds with what
  was read (`pkg/opendrive/upload.go:587-593`): one byte of two, in
  `Uploads.TruncatedUpload`. `Uploads.SendChunks` says when (`Uploads.CutsShort`); declaring the
  size rules it out.
- On success the first result of an upload is the number of wire bytes, not of source bytes
  as `pkg/opendrive/upload.go:542-543` says. The two are equal iff packing the chunks adds
  up to no change in length (`Uploads.WireCountExactly`, `Uploads.WireCountDiffers`).
- A download with an offset for a file that is not there leaves a hole at its start
  (`pkg/opendrive/download.go:165-182`): two bytes upstream and an offset of one, in
  `Downloads.HoleHappens`. A prefix of the remote content stays one whatever the attempt
  comes to iff the file is there, or the offset is 0 or not within the content, or the
  content begins with as many zeros, or the offset is the declared size
  (`Downloads.PrefixKeptExactly`); in that last case a missing file is taken for complete
  (`Downloads.MissingIsComplete`).
- With progress reported, `Written` leaves out the bytes a failing write put down
  (`pkg/opendrive/download.go:422-428`): `Downloads.UncountedByte`. Without progress, or
  when no write fails, it is exact (`Downloads.CopyWithProgress`).
- Once 512 refusals are remembered, a further one is taken for a first one every time
  (`pkg/opendrive/classify.go:414-417`): `Probes.Disambiguator.FullMemoryForgets`, in a state
  `Probes.FullMemory` gives. `Probes.Disambiguator.RefusedTwice` says when the memory works.
- Invalidating a folder by its id drops what is below it only while there is a way back from
  the id, as there is when the folder itself is cached
  (`PathCaches.PathCache.InvalidateID`). Once it has expired or been evicted, what is below
  it stays (`PathCaches.ExpiredFolderKeepsChild`), and of two paths stored under one id only
  the later one goes (`PathCaches.OlderPathStays`), against
  `internal/cache/pathcache.go:156-157`.

## Model

| member | source | states |
|---|---|---|
| `Journal.ReplayJournal` | internal/datacache/journal.go:220-262 | the line-reading loop yields the index, the record count and the torn mark of the recursive reading of the file, whatever its bytes |
| `Journal.CutJournal` | internal/datacache/journal.go:234-276 | a journal of whole records cut at any byte replays to exactly the fold of the records complete before the cut, and is torn iff the cut is inside a record |
| `Journal.CutKeepsSynced` | internal/datacache/journal.go:145-172 | a file that still holds the first m records whole gives at least those m back |
| `Journal.ReplayPointwise` | internal/datacache/journal.go:279-315 | what a replay holds for a path depends only on the records about it, folded one by one |
| `Journal.ReplayWellKeyed` | internal/datacache/journal.go:281-285 | whatever was journalled, every replayed object is filed under its own non-empty path |
| `Journal.CompactionKeepsIndex` | internal/datacache/journal.go:323-360 | replaying a compacted journal gives back the index it was written from |
| `Journal.AppendedBehindCut` | internal/datacache/journal.go:133-172 | what a replay makes of records appended to a journal cut at any byte: at a record boundary they follow the complete ones; inside a record the first of them is read as one line with the torn part, and reading stops there if it does not decode |
| `Journal.AppendedSurvivesExactly` | internal/datacache/store.go:152-166 | where the merged line does not decode, the records appended after a crash are read back iff the crash cut the journal at a record boundary, and otherwise none of them is |
| `Journal.LostBehindTornByte` | internal/datacache/journal.go:234-262 | a journal torn in its first byte, to which one record is appended, replays to nothing |
| `GatewayRuns.StepKeepsInv` | internal/datacache/writeback.go:202-363 | every event, a crash with recovery included, keeps the whole invariant for every path |
| `GatewayRuns.ReachableInv` | internal/datacache/store.go:80-192 | every state that any run from an opened directory can reach, through any number of processes that each start on whole records, satisfies the invariant |
| `GatewayTheorems.CrashDurability` | internal/datacache/store.go:449-513 | once a commit has returned success, a crash at any later point, the journal torn at any byte, recovers that version with its exact bytes, unsent unless committed clean or recorded clean after a confirmed upload, as long as no later commit has renamed over it and no drop has taken it out of the index |
| `GatewayTheorems.VouchedSurvives` | internal/datacache/store.go:194-254 | the same for every version the cache vouches for, those found at opening included |
| `GatewayTheorems.JournalAgrees` | internal/datacache/writeback.go:309-363 | in every reachable state, for a path at rest on which no append or directory sync has failed, replaying the journal and checking it against the directory gives the live entry, access times aside |
| `GatewayTheorems.NothingBroken` | internal/datacache/store.go:487-497 | without failed commits or failed state records, no path is excepted from that |
| `GatewayTheorems.StaleChangeIsInert` | internal/datacache/journal.go:286-294 | a state change for a replaced version changes nothing in the live index and nothing on replay |
| `GatewayTheorems.UnsentConserved` | internal/datacache/writeback.go:454-574 | over any run, where a path picked for a drop stays claimed until it is dropped, an unsent version stays unsent and in the index unless a confirmed upload of that very version, a later commit on the path, a removal the user asked for, or its content having gone ended it; eviction, refresh, clear, flush and drain do not |
| `GatewayTheorems.CertifiedMeans` | internal/datacache/writeback.go:282-303 | a version counts as certified only through a clean commit of it or an upload of it that came back with an accepted hash |
| `GatewayTheorems.CertifiedAtOpening` | internal/datacache/store.go:117-148 | at opening, a version counts as certified iff the journal opened says it is clean |
| `GatewayTheorems.CleanMeansConfirmed` | internal/datacache/writeback.go:246-307 | in every reachable state and in what any crash of it recovers, a clean object is the version the journal first opened says is clean, was committed clean, or was confirmed by an upload of that version |
| `GatewayTheorems.RecoveringTwice` | internal/datacache/store.go:194-254 | from every reachable state: a crash, and another one right after the recovery, with or without compaction; the second recovery gives the index of the first |
| `GatewayTheorems.OpeningsAreStable` | internal/datacache/store.go:80-192 | the same for a crash right after a directory, whatever it held, was first opened |
| `GatewayRemoval.KeptExactly` | internal/datacache/store.go:586-606 | a commit that goes through, among any number of unclaimed removals, each of whose three parts may fall anywhere, and anything else but a restart: the index holds its version iff no removal took the entry after it landed, the file is there iff none took it after the rename, the journal has the version iff no drop was recorded after its record |
| `GatewayRemoval.RecoveredExactly` | internal/datacache/store.go:463-513 | and every crash then, the journal torn at any byte, recovers that version with its bytes iff no removal took the file after the rename and none recorded a drop after the commit's record |
| `GatewayRemoval.FileLateLoses` | internal/datacache/store.go:594-602 | whenever a commit stands before its rename, a removal may take the old entry before it and the new file after it: the commit succeeds, the index has the version, and its content is gone |
| `GatewayRemoval.RecordLateLoses` | internal/datacache/store.go:594-602 | or take entry and file before the rename and record its drop after the commit's record: the content is there, and no restart knows of it |
| `GatewayRace.UnsentComesFromLanding` | internal/datacache/store.go:499-511 | but for a restart, only a dirty commit of a version makes it unsent |
| `GatewayRace.HeldExactly` | internal/datacache/store.go:463-513 | after any run without a restart a version is held unsent iff it was before and nothing ended it, or a dirty commit of it landed and nothing ended it since |
| `GatewayRace.EntryTakesUnsentExactly` | internal/datacache/store.go:587-599 | of a path picked for eviction, refresh or clearing and forgotten after a run with no claim on it, the entry taken is of unsent data iff a dirty commit landed on it in between and nothing has ended that version |
| `GatewayRace.StruckIsGone` | internal/datacache/store.go:594-602 | once all of a removal is through, what was at the path is in neither index nor directory, and no journal a crash may leave has it |
| `GatewayRace.RaceIsOpen` | internal/datacache/store.go:648-659 | whenever a dirty write of a path is open, it may commit and be acknowledged before a removal that takes it for good |
| `GatewayRace.RaceHappens` | internal/datacache/store.go:627-659 | a cache of one clean file, picked for eviction, rewritten and acknowledged before it is forgotten |
| `GatewayRace.SplitHappens` | internal/datacache/store.go:594-602 | the same file picked while its rewriting stands before the rename: nothing has landed when the entry goes, and the file that goes later is the new one |
| `GatewayAllowance.DirtyAllowance` | internal/datacache/store.go:380-432 | when a dirty commit lands, the unsent bytes are at most the allowance plus what other dirty commits added since this writer was opened, for any overlap of writers, flushes and removals |
| `GatewayAllowance.OneWriterStaysWithin` | internal/datacache/store.go:386-401 | with one dirty writer at a time and a start within the allowance, the allowance is never passed |
| `DataCaches.VerifyAgainstDisk` | internal/datacache/store.go:194-254 | the startup loop keeps exactly the entries whose file is there with the recorded size, counts their bytes and their unsent bytes, and names the unsent ones lost |
| `DataCaches.DataCache.Open` | internal/datacache/store.go:80-192 | opening establishes the class invariant on the replayed and verified index |
| `DataCaches.DataCache.ValidIsReachable` | internal/datacache/store.go:80-192 | whenever the class invariant holds, the cache is in a state some run reaches, so every theorem above applies to it |
| `DataCaches.DataCache.NewWriter` | internal/datacache/store.go:380-409 | refuses exactly when closed, draining or without room, counting a replaced unsent object's bytes as room |
| `DataCaches.DataCache.Put` | internal/datacache/store.go:499-511 | filing an object keeps both byte counters equal to their sums |
| `DataCaches.DataCache.Land` | internal/datacache/store.go:499-511 | the critical section of a commit, whatever came before it, is the step of the system, with both byte counters equal to their sums |
| `DataCaches.DataCache.Commit` | internal/datacache/store.go:463-513 | success iff every file operation succeeded; then exactly the seven steps were taken in order, the object is filed and vouched for with the writer's bytes; on failure the index is untouched |
| `DataCaches.DataCache.Take` | internal/datacache/store.go:587-599 | removing an entry keeps both byte counters equal to their sums |
| `DataCaches.DataCache.Forget` | internal/datacache/store.go:586-606 | removes the entry and its file and nothing else, and nothing at all when there is no entry |
| `DataCaches.DataCache.Refresh` | internal/datacache/writeback.go:461-476 | with nothing between pick and drop: drops a clean object, refuses an unsent one, reports a missing one |
| `DataCaches.DataCache.TryRemove` | internal/datacache/writeback.go:496-511 | one turn of Remove: drops the object whatever its state unless its slot is taken, and reports whether it was unsent |
| `DataCaches.DataCache.Clear` | internal/datacache/writeback.go:554-574 | with nothing between the check and the drops: empties the index iff nothing is unsent, and otherwise drops nothing |
| `DataCaches.Oldest` | internal/datacache/store.go:634-636 | picks a candidate last accessed no later than any other |
| `DataCaches.Doomed` | internal/datacache/store.go:627-645 | picks only clean objects, none used later than a clean one kept, no more than needed, until the low mark or no clean object is left |
| `DataCaches.DataCache.EvictIfNeeded` | internal/datacache/store.go:618-666 | the same of what is actually dropped, with nothing between pick and drops: nothing at or below the high mark, otherwise bytes at or below the low mark or nothing but unsent data left, and the unsent bytes unchanged |
| `DataCaches.DataCache.TakeSlot` | internal/datacache/writeback.go:203-212 | takes the slot iff the object is unsent, no worker holds it and the cache is open |
| `DataCaches.DataCache.CheckState` | internal/datacache/writeback.go:319-324 | a change goes on only if the version it is about is still the one held |
| `DataCaches.DataCache.ApplyState` | internal/datacache/writeback.go:341-362 | applies a change iff its version is still held, with the dirty counter kept equal to its sum |
| `DataCaches.DataCache.SetState` | internal/datacache/writeback.go:318-363 | a transition is applied iff its version is held and its record was appended and synced; otherwise the index does not move |
| `DataCaches.DataCache.ReleaseSlot` | internal/datacache/writeback.go:219-223 | gives back that slot and no other |
| `DataCaches.DataCache.FlushOne` | internal/datacache/writeback.go:202-307 | of an unsent object nobody else sends: dropped iff its content is gone, otherwise the same version, moved as far as the two records, each with its own outcome, let it: clean iff the upload was confirmed and recorded, with the failure and one more attempt noted otherwise; no other path is touched and the slot is given back |
| `DataCaches.CleanIffConfirmed` | internal/datacache/writeback.go:246-307 | a flush makes an object clean iff upstream confirmed it and that was recorded, and never changes its version, whichever of its two records failed |
| `DataCaches.DataCache.Status` | internal/datacache/store.go:708-743 | counts the unsent objects and their bytes, no more than all bytes held, and safe to shut down means none and zero dirty bytes |
| `FlushSlots.OneUploadPerPath` | internal/datacache/writeback.go:202-230 | in every interleaving at most one worker sends a path, and the slot table says exactly which paths are being sent |
| `FlushSlots.NoLostWakeUp` | internal/datacache/writeback.go:435-452 | a waiter registered on an upload is closed once that upload has been notified of, or is in the hands of one worker that closes it by steps of its own |
| `FlushSlots.AllWoken` | internal/datacache/writeback.go:494-519 | when no worker is busy, every waiter Remove ever registered has been woken |
| `FlushSlots.Notifier.WaiterLocked` | internal/datacache/writeback.go:438-442 | registers one more waiter, on the upload in flight, as the step of the system does |
| `FlushSlots.Notifier.NotifyWaiters` | internal/datacache/writeback.go:444-452 | closes every waiter registered and empties the list, by the steps of the system |
| `Paths.NormalisePath` | internal/datacache/object.go:109-124 | the loop computes the normal form: trimmed, every run of slashes one, anchored, no final slash |
| `Paths.IdempotentExactly` | internal/datacache/object.go:101-124 | normalising twice is normalising once iff no blank stands before the slash cut off |
| `Paths.TwoPasses` | internal/datacache/object.go:109-124 | a path for which it is not |
| `Offsets.RefusalRoundTrip` | pkg/opendrive/upload.go:516-540 | the resume point read from upstream's refusal is the number it wrote, whenever that fits in 64 bits |
| `Uploads.SendOneChunk` | pkg/opendrive/upload.go:668-705 | over any number of repeats the server's stream only grows, and the result is that of the last round trip |
| `Uploads.SendChunkResuming` | pkg/opendrive/upload.go:605-666 | success means the stream is complete up to the end of the chunk, and happens exactly when the answers make it so: taken whole, already there, or its tail taken whole |
| `Uploads.SendNext` | pkg/opendrive/upload.go:558-591 | one turn of the loop keeps what is on the wire equal to the packed chunks read so far |
| `Uploads.SendChunks` | pkg/opendrive/upload.go:542-598 | against lost replies, partial writes, late and repeated requests: success means the server's stream is exactly the packed chunks in order, any other outcome leaves a prefix of them; with every chunk answered in full it succeeds iff the source and size allow, with one request a chunk; and success short of the content comes only, and with every chunk answered always, from a source that breaks inside a chunk with no other size declared |
| `Uploads.ChunkSize` | pkg/opendrive/upload.go:171-179 | the chunk size asked for, and never below the minimum |
| `Uploads.PiecesAreTheContent` | pkg/opendrive/upload.go:558-591 | the chunks joined in order are the content: no gap, no repeat |
| `Uploads.PiecesCount` | pkg/opendrive/upload.go:558-591 | as many chunks as the size needs and no more |
| `Uploads.PlainWire` | pkg/opendrive/upload.go:567-574 | without compression what is on the wire is the content itself |
| `Uploads.TruncatedUpload` | pkg/opendrive/upload.go:587-593 | a source of two bytes that breaks after one: with every chunk answered in full the upload succeeds and one byte is there |
| `Uploads.WireCountExactly` | pkg/opendrive/upload.go:542-598 | as many bytes on the wire as were read iff packing the chunks adds up to no change in length |
| `Uploads.WireCountDiffers` | pkg/opendrive/upload.go:542-598 | one source byte and two wire bytes |
| `Transfers.Transfer` | pkg/opendrive/upload.go:324-387 | a deduplicated upload sends nothing and closes without a temp location; any other success holds the content and is closed once with the right hash, location and compression mark |
| `Transfers.Upload` | pkg/opendrive/upload.go:283-322 | a record is completed by one close or, after a failure, taken back unless it is to be kept or may not be its own |
| `Downloads.CopyWithProgress` | pkg/opendrive/download.go:412-436 | what reaches the file is the next part of the body at the file's place; it succeeds iff the body ends cleanly and no write fails, and the count is exact but for a failing write under progress |
| `Downloads.UncountedByte` | pkg/opendrive/download.go:422-428 | a body of one byte, and a file whose first write puts it down and fails: the file has it and the count has not |
| `Downloads.SkipForward` | pkg/opendrive/download.go:263-274 | skips exactly the offset, and fails iff the body is shorter |
| `Downloads.Download` | pkg/opendrive/download.go:209-298 | whether upstream answers with the tail or the whole file, the file grows by the remote bytes from the offset on; it succeeds iff the body came whole, no write failed and the hash, where it can be checked, is the remote content's |
| `Downloads.DownloadFile` | pkg/opendrive/download.go:161-195 | the same for a file on disk, resuming at its size, or at the caller's offset when there is no file |
| `Downloads.PrefixKept` | pkg/opendrive/download.go:155-195 | over any number of attempts a prefix of the remote content stays one, and the growths add up |
| `Downloads.PrefixKeptExactly` | pkg/opendrive/download.go:161-195 | whatever an attempt comes to, a prefix of the remote content stays one, iff what a caller can check holds: a file is there, no offset or one not within the content, as many zeros at its start, or nothing to be fetched |
| `Downloads.HoleHappens` | pkg/opendrive/download.go:165-182 | two bytes upstream, no file and an offset of one: a zero and the second byte |
| `Jobs.ReachableInv` | internal/jobs/engine.go:403-476 | in every interleaving of a worker, Cancel calls, saves and restarts the lifecycle invariant holds |
| `Jobs.TerminalStays` | internal/jobs/engine.go:274-307 | while the process lives a terminal state is never left, in any interleaving |
| `Jobs.SeenIsStored` | internal/jobs/engine.go:677-712 | a job seen succeeded or failed is already stored as that, if no save has failed |
| `Jobs.SettledForGood` | internal/jobs/engine.go:309-383 | and it stays so through any number of restarts, never to be requeued, whatever fails later |
| `Jobs.TransfersBounded` | internal/jobs/engine.go:401-449 | one pick-up makes at most max(1, limit - attempts at pick-up) transfers |
| `Jobs.SucceededMeansDelivered` | internal/jobs/engine.go:424-434 | a job succeeds only if a transfer of it did or upstream showed its whole file after a restart |
| `Jobs.CancelStopsExactly` | internal/jobs/engine.go:274-307 | after a Cancel call on a job not over, with transfers that stop when told to, no further transfer is begun while the process lives, iff the call did not fall between the return of a transfer to be tried again and its requeueing |
| `Jobs.CancelIsMissed` | internal/jobs/engine.go:424-468 | an input: a job cancelled when its first transfer is back with a passing failure is transferred again |
| `Jobs.CancelledCanComeBack` | internal/jobs/engine.go:721-738 | an input: a run in which no save fails and a restart requeues a cancelled job |
| `Jobs.CancelledForGoodExactly` | internal/jobs/engine.go:274-307 | a cancelled job is seen as nothing else over every further run, restarts and failing saves included, iff the cancellation is stored and no snapshot of an earlier state is on its way to the store |
| `Engines.Reclaim` | internal/jobs/engine.go:757-810 | deletes a record iff upstream shows it empty and it may be the job's own, and never one that looks like a file |
| `Engines.Engine.Submit` | internal/jobs/engine.go:173-216 | an accepted job is both stored and visible, a refused one is neither |
| `Engines.Engine.PickUp` | internal/jobs/engine.go:407-421 | takes up a job that is not over, counting the attempt, as the machine's step does |
| `Engines.Engine.Finish` | internal/jobs/engine.go:685-712 | the outcome is stored and then shown, and both are the same |
| `Engines.Engine.Cancel` | internal/jobs/engine.go:274-307 | tells a transfer under way to stop and leaves the rest to its worker; cancels a job without one, stores that unless the save fails, and takes its record back iff upstream shows it empty and it may be the job's own; leaves a finished one as it is |
| `Engines.Engine.Conclude` | internal/jobs/engine.go:426-468 | a job goes on iff the failure is temporary and below the smaller of the two budgets, and otherwise ends as the transfer did |
| `Engines.Engine.Run` | internal/jobs/engine.go:403-476 | the loop ends every job in a terminal state that is stored, within the bound on transfers, by a run of the machine |
| `PathCaches.CoversDescendants` | internal/cache/pathcache.go:202-221 | the test by prefix drops exactly a folder and its descendants, never a sibling whose name begins the same way |
| `PathCaches.PathCache.Lookup` | internal/cache/pathcache.go:95-114 | answers an id only if a Store of that path, at most one TTL ago, gave it, with no later Store, Reset, invalidation of it or an ancestor by path or by the id it was found under, or change seen in a folder above it; an expired entry is dropped |
| `PathCaches.PathCache.Store` | internal/cache/pathcache.go:117-128 | files the resolution and trims to the bound, least recently used first and no more than needed |
| `PathCaches.PathCache.Observe` | internal/cache/pathcache.go:133-147 | a changed folder loses exactly what is cached below it, and the history forbids those answers |
| `PathCaches.PathCache.InvalidatePath` | internal/cache/pathcache.go:150-154 | drops the path and its descendants and nothing else, and the history forbids those answers |
| `PathCaches.PathCache.InvalidateID` | internal/cache/pathcache.go:158-175 | drops the folder last stored under the id with its descendants iff there is a way back to it or nothing to drop, finds that way whenever the folder itself is cached, and forgets when its parent was observed |
| `PathCaches.ExpiredFolderKeepsChild` | internal/cache/pathcache.go:158-175 | a folder that has expired, been looked up and then been invalidated by its id: what lies below it is still answered |
| `PathCaches.OlderPathStays` | internal/cache/pathcache.go:158-175 | an id stored under two paths and then invalidated: the older path is still answered |
| `PathCaches.PathCache.Reset` | internal/cache/pathcache.go:178-184 | nothing stored before is answered again |
| `PathCaches.PathCache.DropPath` | internal/cache/pathcache.go:224-234 | removes that entry, the id's way back to it, and what was observed of it |
| `PathCaches.PathCache.Evict` | internal/cache/pathcache.go:238-255 | restores the bound by dropping as few as needed, none used later than any kept |
| `Requests.Do` | pkg/opendrive/client.go:331-402 | for any answers: at most Max + 2 round trips, at most one renewal, every repeat justified by the answer before it, and giving up only when nothing allows another |
| `Requests.NotRepeatedBlindly` | pkg/opendrive/client.go:375-382 | a request not safe to repeat is repeated only after a renewal or a temporary 403 or 429 |
| `Probes.NeverOverlap` | pkg/opendrive/classify.go:429-431 | of any two probes the earlier one ended an interval or more before the later one started |
| `Probes.Disambiguator.Enter` | pkg/opendrive/classify.go:437-460 | a known verdict is used for an interval, a probe in flight is waited for, and otherwise this caller probes, an interval or more after the last probe ended |
| `Probes.Disambiguator.Finish` | pkg/opendrive/classify.go:464-467 | the probe's end is recorded and its verdict stands |
| `Probes.Disambiguator.Check` | pkg/opendrive/classify.go:432-469 | one check spends at most one probe, and decides by a known verdict, by its own probe, or by that of the caller it waited for, unless it gives up waiting |
| `Probes.Disambiguator.Resume` | pkg/opendrive/classify.go:451-454 | a caller let go goes by the verdict on record, and there is one once no probe is in flight |
| `Probes.Disambiguator.NoteSuccess` | pkg/opendrive/classify.go:374-387 | revokes the refusal of that call and remembers the success while there is room |
| `Probes.Disambiguator.MarkDenied` | pkg/opendrive/classify.go:404-418 | first iff no refusal within the interval is on record, and recorded iff there was room or it was known |
| `Probes.Disambiguator.RefusedTwice` | pkg/opendrive/classify.go:389-418 | of two refusals within an interval the second is told apart iff the first could be remembered |
| `Probes.Disambiguator.FullMemoryForgets` | pkg/opendrive/classify.go:414-417 | with the memory full of other calls, a second refusal a moment later is a first one again |
| `Probes.FullMemory` | pkg/opendrive/classify.go:357-372 | such a memory |
| `Probes.Disambiguator.Resolve` | pkg/opendrive/classify.go:487-547 | settles an ambiguous error once; a working credential leaves it temporary iff the call has worked or this is its first refusal, and no settled error asks for a renewal it did not ask for before |
| `Pbkdf2.XorInto` | internal/keystore/envelope.go:180-182 | the in-place loop is the exclusive or of the two buffers |
| `Pbkdf2.NextLink` | internal/keystore/envelope.go:176-183 | one iteration replaces the chain value by its HMAC and gathers it |
| `Pbkdf2.Block` | internal/keystore/envelope.go:165-183 | one block is F of section 5.2 of RFC 8018 |
| `Pbkdf2.Pbkdf2SHA256` | internal/keystore/envelope.go:157-187 | the loops compute PBKDF2 for every password, salt, count and length |
| `Pbkdf2.KeysNest` | internal/keystore/envelope.go:140-145 | a longer key stream begins with the shorter one, so key and IV are cut from one stream |
| `Base64.RoundTrip` | internal/keystore/envelope.go:93-108 | decoding what was encoded gives it back |
| `Envelope.Unpad` | internal/keystore/envelope.go:207-222 | the loop computes the unpadding specified |
| `Envelope.UnpaddedExactly` | internal/keystore/envelope.go:207-222 | unpadding succeeds with a content iff the data is that content and 1 to 16 octets each holding their number |
| `Envelope.PaddingRoundTrip` | internal/keystore/envelope.go:189-222 | unpadding what was padded gives it back |
| `Envelope.CbcRoundTrip` | internal/keystore/envelope.go:84-127 | chaining over any block permutation is undone by the inverse chaining |
| `Envelope.CbcRoundTripBack` | internal/keystore/envelope.go:84-127 | and the other way round, so no two texts decrypt to the same plaintext |
| `Envelope.StripSpace` | internal/keystore/envelope.go:226-235 | the loop removes the blanks and nothing else |
| `Envelope.Wrap` | internal/keystore/envelope.go:92-102 | the loop wraps at 64 columns and ends in a newline |
| `Envelope.WrappedStrips` | internal/keystore/envelope.go:92-110 | wrapping adds nothing that stripping does not take away |
| `Envelope.Seal` | internal/keystore/envelope.go:72-103 | the armoured form of the mark, the salt and the chained, padded text |
| `Envelope.Open` | internal/keystore/envelope.go:107-129 | opens what passes every check, and says which check failed |
| `Envelope.OpenSealed` | internal/keystore/envelope.go:105-138 | opening what was sealed gives it back, however line breaks and blanks changed on the way, and it is recognised as sealed |
| `EnvFile.EscapeRoundTrip` | internal/keystore/env.go:315-325 | unescaping undoes escaping, for every string |
| `EnvFile.LineParses` | internal/keystore/env.go:244-303 | the line written for a well-formed field reads as that field and no other |
| `EnvFile.RenderRoundTrip` | internal/keystore/env.go:240-313 | reading back what was written gives the same fields |
| `EnvFile.RoundTripExactly` | internal/keystore/env.go:240-313 | with well-formed keys, exactly when no value is empty or holds a newline |
| `EnvFile.ParseEnv` | internal/keystore/env.go:242-269 | the loop reads the document line by line |
| `EnvFile.SortKeys` | internal/keystore/env.go:274-278 | the keys once each, in sorted order |
| `EnvFile.RenderEnv` | internal/keystore/env.go:273-292 | the loop writes the fields in sorted order |
| `Credentials.SplitCredentialFile` | internal/keystore/env.go:223-236 | the loop separates the first line that counts from the rest |
| `Credentials.SplitDocument` | internal/keystore/env.go:206-236 | splitting a written file gives back its key line and its sealed part, under any comment header |
| `Credentials.ReadWritten` | internal/keystore/env.go:157-219 | reading what was written gives the same fields with a checksum that matches, for well-formed keys and non-empty, newline-free values |
| `Credentials.EnvStore.Read` | internal/keystore/env.go:158-188 | accepts only a file that decrypts and whose checksum matches its fields |
| `Credentials.EnvStore.Write` | internal/keystore/env.go:190-219 | replaces the file with the sealed fields under the cached or a fresh key, or changes nothing |

## Left out

- `GatewayTheorems.UnsentConserved`: in the step system a path picked for eviction, refresh, clearing or removal stays claimed until the drop is through, while the code picks and drops in separate critical sections; without the claim it is false, and `GatewayRemoval.KeptExactly` and `GatewayRemoval.RecoveredExactly` say when.
- `GatewayRemoval.KeptExactly`: the runs have no restart in them; a later commit on the path, a claimed drop of it and a failing step of the commit end what they speak of.
- `Jobs.CancelStopsExactly`: a transfer told to stop comes back as stopped or done, never with another failure.
- `DataCaches.DataCache.Refresh`: the lock is not let go between pick and drop, as it is in the code.
- `DataCaches.DataCache.Clear`: the lock is not let go between the check and the drops, as it is in the code.
- `DataCaches.DataCache.EvictIfNeeded`: the lock is not let go between pick and drops, as it is in the code.
- Recovery, with the removal of files it cannot account for and the compaction that may follow, is one event; a crash during recovery is covered only as a second crash right after it.
- `GatewayRuns.ReachableInv`: a later process starts on whole records, and the journal is torn at most by the crash a theorem is about; on a torn one it is false of the process after, as `Journal.AppendedSurvivesExactly` says.
- Version stamps are distinct on each path, as the code's clock makes them; nothing is assumed across paths.
- The steps of one call in `DataCaches.DataCache` run without interruption; interleavings are in the step system, whose events its critical sections are.
- Failing removals of content files, partial journal writes without a crash, records with no version, temporary files, locks and mount points.
- Journal records are abstract texts with no newline that decode to what was encoded; JSON itself is not modelled.
- File ids and hashes carried by state records, which the flusher never sets.
- That everything is eventually sent, and what Drain reports: the queue may drop entries and the sweep skips objects in flight.
- `requeueUnsent`, `oldestUnsent`, `Unsent`, `Objects` and `ChildrenOf`: listings in sorted order.
- Integers are unbounded except for the resume point of an upload and the block number of the key derivation.
- Hashes, HMAC, compression and the block cipher are abstract functions with the facts they are used for; text and octets convert back and forth without loss.
- The server of an upload is truthful about how much it took and where it stands; its other messages name no resume point. A download's 206 begins where it was asked to, and a body that ends cleanly is complete.
- Progress callbacks, speeds, hit rates, log lines and error wording.
- Submitting a job whose queue is full is in `Engines.Engine.Submit` but not in the machine, where a job starts queued; recovering one job is one event.
- The wait until an uploaded file is visible, and uploads and downloads that go through the cache.
- Error classification from status codes and bodies; an answer comes classified, and `Requests.Do` sees ambiguous ones settled.
- `Envelope.Seal`: the block size is 16, the only one the code pads to.
- Mapping credentials to fields, and the atomic replacement of the credential file, which is one step that works or does not.
- HTTP handlers, routing, the command line, the web pages and the endpoint bindings.
