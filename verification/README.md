# Proxmox Backup Client: a verified model

This project models the parts of the backup client where a mistake would cost data, and proves what they promise.
`dafny verify dfyconfig.toml` checks all of it.

- **Writing a backup.** `Chunker`, `RollingHash` and `Chunking` are the content-defined chunker and what chunking a
  stream means, and `ContentDefined` says outright where chunks end. `DynamicIndex` says what an index is, `PbsClient`
  what the server keeps and how a request may fail, `ChunkWriter` is the writer of one index. `Snapshot` puts two
  writers, which share one set of known chunks, into one server session; `Directory` makes at most two attempts at a
  directory and finishes its session, `Session` runs directory after directory until done or stopped, and `RunTotals`
  compares the figures of a run with its snapshots; `StreamBackup` is the command-line client's stream backup and
  compares the two programs' writers.
- **Several folders at once.** `Outcome` is the result of a run and how results are merged, `Aggregate` what that adds
  up to, `ParallelFolders` the batch with its semaphore, in every interleaving, and `FolderRun` the link to a single
  run.
- **Splitting a backup.** `BinPacking` and `FirstFitDecreasing` are the packing and its 3/2 bound; `SplitPlan`,
  `SplitJobs`, `SplitCoverage` and `SplitEstimate` the decision, the plan, what the plan covers, and the number of jobs
  suggested before it is made; `SplitBackup` puts the jobs together.
- **The scheduler.** `Schedule`, `Provisioning`, `Scheduler`, `MissedRuns` and `SchedulerApp`: times, declared jobs,
  the claim protocol, overdue runs, and the operations as the program performs them; `StepEffects` says field by field
  what each step does, and `RepeatedRuns` exactly when a run is done twice.
- **Smaller protocols.** `ExtendedAttributes`, `AlternateStreams` and `StreamRecords` (NTFS metadata, section 2.4 of
  [MS-FSCC]),
  `LegacyMigration` (taking over an older release's files), `ArchivePaths` and `RestorePaths` (selective restore),
  `ServerTable` (servers and credentials), `RestoreCache`, `DiskPins` and `PinHistory` (one run, and many) and `Progress`.

Objects that the program changes in place are classes, its loops are loops, and each is proved against a function or
predicate whose own properties are lemmas, and what decides an operation is also said outright, apart from the
function that computes it: which byte ends a chunk, when an attempt must get through, which jobs a tick starts.
Everything outside the program (the server's answers, the disk, the stop button, the scheduling of goroutines) is
nondeterministic, so a statement about a run is a statement about all runs. Digests are an injective function where
reading back is concerned, and any function elsewhere.

## Results that differ from what one might expect

- The fit test of the packing adds 64-bit sizes that wrap around. Bins stay within the target for all folders exactly
  if the target is below 2^63 (`FitTestSound`). A configured size counts modulo 2^34 GiB (`SplitSizeLimits`); at a
  multiple of that the bin size is zero and applying the policy divides by zero.
- A scheduled run can be done twice: a runner that is slow between its tick and its claim repeats a run that was
  finished meanwhile (`StaleRunnerRunsTwice`). It does so exactly if a run of the job was recorded since the tick and the
  next run computed then has not come yet (`RepeatsExactly`, from `DueExactly`).
- Provisioning the same job again changes it only in one case, an enabled job with a changed, unreadable schedule and a
  next run of its own (`ReplaceTwice`); validation keeps that case out.
- A flat restore reports that nothing matched, although something did, exactly if a requested path is the common
  directory of all of them (`CheckKeepsPromise`).
- The text from which a cache file's name is made is ambiguous exactly for keys with a zero byte in a part
  (`KeyTextExact`); a lookup is right all the same, since the key is stored in the file.
- A disk pin is followed within one run: the pin moves with the disk, the saved reference does not. After a run a
  reference goes on standing for its disk, in every later list of disks that has a reliable identity, exactly if the
  disk was found at the saved path (`GuaranteeSurvives`); without a reliable identity the reference is passed through,
  whatever disk is there (`FollowsWhereListed`). A later run may end that again: the merge may leave two disks pinned to
  one path, which makes the next run depend on the order in which a map is walked (`MergeKeepsDistinct` says exactly
  when, `PinsCollide` is an example). Over any number of runs the answer is `FollowsAfterRuns`. Resolving also fails
  when a pinned disk is absent and no other disk is at its old path, or when a reference is empty, although the comment
  at gui/diskpin.go:106-108 names only one kind of error.
- New and reused chunks are counted over all attempts. A chunk that an attempt uploaded before it lost its session is new
  again in the next attempt and counted twice (`OneChunkCountedTwice`, `LostSessionCountsTwice`). The figures are those
  of the confirmed snapshots exactly if no other attempt counted anything (`Sessions.Run`, by `FiguresOf`).
- A directory that fails before its session opens adds the file lists of the directory before it once more
  (`ErrorListedTwice`); the lists are exact exactly if there was nothing to repeat (`ListsExactly`). Every directory
  backup runs with one directory, and then they always are (`OneDirectoryListsExact`).
- A chunk that failed in a first attempt makes the whole run failed even if the second attempt succeeded: the failed
  counter spans attempts (`Sessions.Run`, where it equals the refused uploads of the run).
- The limit on recorded stream content can be overdrawn, once, by a stream that grew after its size was read
  (`TakeStreams`, `OverdrawnExactly`).
- The suggested number of jobs wraps around to two when the total and a bin size exceed 2^64 together
  (`TwoIsAnEstimateExactly` says exactly when that is still an estimate).

## Model

| member | source | states |
|---|---|---|
| `Chunkers.Chunker.constructor` | pbscommon/buzhash.go:56-74 | A new chunker has the limits average/4 and 4*average and the mask 2*average-1 of its average size, and starts fresh |
| `Chunkers.Chunker.Scan` | pbscommon/buzhash.go:76-128 | Whatever the buffer, Scan returns 0 or the 1-based position of the first break, and carries exactly the state of the byte-by-byte automaton to the next call |
| `Chunkers.Chunker.Fill` | pbscommon/buzhash.go:82-104 | The first loop refills the window without testing for a break, and stops short only at the end of the data |
| `Chunkers.Chunker.Slide` | pbscommon/buzhash.go:106-126 | The second loop passes one state per byte, none of them a break, until the first break |
| `RollingHash.RollIsPlain` | pbscommon/buzhash.go:108-111 | Rolling a full window one byte on gives the hash of the new window computed from nothing |
| `RollingHash.StepInSync` | pbscommon/buzhash.go:91-124 | Every step keeps the rolling hash equal to the plain hash of the last 64 bytes of the chunk, the circular window included |
| `RollingHash.CutDependsOnLastBytes` | pbscommon/buzhash.go:130-141 | Whether a chunk ends is decided by the size limits and the last 64 bytes only, whatever came before; ContentDefined says how |
| `RollingHash.BuzhashIsLawful` | pbscommon/buzhash.go:94-111 | Rotation and exclusive or on 32 bits obey the laws that rolling needs; 64 turns bring a word back |
| `ContentDefined.ScanStopsAtFirst` | pbscommon/buzhash.go:76-141 | From any state between two buffers, Scan returns the first place where more than 64 bytes of the chunk are in and it is at its maximum size, or at least at its minimum size with the plain hash of its last 64 bytes asking for a cut; and 0 if there is none |
| `ContentDefined.StepAsksEnd` | pbscommon/buzhash.go:106-141 | The same for one byte |
| `ContentDefined.ChunksExactly` | pbscommon/buzhash.go:76-141 | A list of chunks is that of a stream exactly if it is the stream cut so that every chunk but the last asks for its end and none asks earlier |
| `ContentDefined.ClientAsksEnd` | pbscommon/buzhash.go:56-141 | With the client's average: a chunk ends at 16 MiB, or from 1 MiB on when the low 23 bits of the hash are at least 0x7FFFFD |
| `ContentDefined.ClientHash` | pbscommon/buzhash.go:94-111 | One byte more turns the hash by one bit and takes in the table's word for it |
| `Chunking.CutConcat` | gui/backup_inline.go:272-411 | However a stream is cut into buffers, feeding them in turn is feeding the whole |
| `Chunking.CutByScan` | gui/backup_inline.go:272-411 | One call of Scan, seen from the writer: no break extends the current chunk, a break ends it |
| `Chunking.IncrementalIsOneShot` | gui/backup_inline.go:272-498 | The chunks a writer ends up with are those of the whole-stream definition |
| `Chunking.ChunksReassemble` | gui/backup_inline.go:272-498 | The chunks of a stream, end to end, are the stream; none is empty |
| `Chunking.CutInSync` | pbscommon/buzhash.go:76-128 | Between any two buffers the hash is that of the last bytes of the unfinished chunk |
| `Chunking.ChunkSizesAccepted` | pbscommon/buzhash.go:130-141 | With the 4 MiB average every chunk is at most 16 MiB, and all but the last are at least 1 MiB |
| `DynamicIndexes.BooksAreTheIndex` | gui/backup_inline.go:336-339 | What a writer keeps is the index of its chunks: each digest, each start offset, the byte total and the chunk count |
| `DynamicIndexes.BooksChecksum` | gui/backup_inline.go:329-334 | The checksum input is, chunk by chunk, the little-endian end offset on eight bytes and the digest |
| `Bytes.LittleEndianDigit` | gui/backup_inline.go:329-334 | Byte number i of a little-endian number is its digit number i to the base of 256 |
| `DynamicIndexes.ReadBackIsStream` | gui/backup_inline.go:272-498 | An index whose digests are all stored reads back as the stream it was written from |
| `PbsClients.PbsClient.Connect` | pbscommon/pbsapi.go:1231-1420 | A connect opens a new session and abandons one that is still open; the lists of files start empty |
| `PbsClients.PbsClient.UploadDynamicCompressedChunk` | pbscommon/pbsapi.go:792-794 | A confirmed upload is stored and counted; a failed one may be stored, and is counted as refused |
| `PbsClients.PbsClient.CreateDynamicIndex` | pbscommon/pbsapi.go:719-784 | A created index is new, empty and open; other indexes stay |
| `PbsClients.PbsClient.AssignDynamicChunks` | pbscommon/pbsapi.go:937-967 | A confirmed assignment appends exactly once, and only to an open index |
| `PbsClients.PbsClient.CloseDynamicIndex` | pbscommon/pbsapi.go:969-1004 | A confirmed close records checksum, size and count; a failed one may have |
| `PbsClients.PbsClient.UploadManifest` | pbscommon/pbsapi.go:1119-1155 | A confirmed upload leaves the manifest with the session |
| `PbsClients.PbsClient.Finish` | pbscommon/pbsapi.go:1157-1184 | A confirmed finish commits the session as it stands and drops the connection; a failed one may have committed it |
| `PbsClients.PbsClient.Close` | pbscommon/pbsapi.go:1425-1443 | After a close no session is open |
| `ChunkWriters.ChunkState.constructor` | gui/backup_inline.go:238-261 | A new writer is in order, has written nothing and shares the given known-chunk set |
| `ChunkWriters.ChunkState.StoreThenMark` | gui/backup_inline.go:290-323 | The GUI marks a digest known only once its chunk is stored, under its own digest; a refused chunk is counted as failed and not as new |
| `ChunkWriters.ChunkState.MarkThenStore` | directorybackup/main.go:80-90 | The command-line client marks first; when the upload succeeds the result is the same |
| `ChunkWriters.ChunkState.Publish` | gui/backup_inline.go:287-327 | A known chunk is reused and not uploaded, an unknown one uploaded; every chunk is counted once, as new or as reused, and as many are uploaded as digests made known |
| `ChunkWriters.ChunkState.Note` | gui/backup_inline.go:329-339 | A finished chunk is entered into the index, the offsets, the total, the count and the checksum input |
| `ChunkWriters.ChunkState.EndChunk` | gui/backup_inline.go:279-404 | A chunk is indexed only after it was published; a failed upload leaves it out |
| `ChunkWriters.ChunkState.EndChunks` | gui/backup_inline.go:278-409 | The loop over breaks ends exactly the chunks that the whole buffer completes |
| `ChunkWriters.ChunkState.HandleData` | gui/backup_inline.go:272-411 | A buffer of any size is taken in completely, or the call fails; the known-chunk set stays within the store |
| `ChunkWriters.ChunkState.EndStream` | gui/backup_inline.go:414-462 | At the end of the stream what is left becomes the last chunk |
| `ChunkWriters.ChunkState.AssignAll` | gui/backup_inline.go:464-487 | All chunks are assigned in order, at most 128 per request; other indexes stay |
| `ChunkWriters.ChunkState.CloseIndex` | gui/backup_inline.go:464-498 | An index that is closed, the answer lost or not, lists all chunks and offsets of its writer; on success its checksum, size and count are the writer's |
| `ChunkWriters.ChunkState.EOF` | gui/backup_inline.go:413-498 | Whatever fails, an index that is closed lists exactly the chunks of the stream, all stored; on success its checksum, size and count are those of the whole stream |
| `ChunkWriters.RestorableReadsBack` | gui/backup_inline.go:272-498 | A closed index reads back from any later store as exactly the bytes written |
| `Snapshots.FeedOne` | gui/backup_inline.go:1439-1462 | Feeding one of two writers leaves the other in order although they share the known-chunk set |
| `Snapshots.Write` | gui/backup_inline.go:1456-1466 | A write goes to the right writer; a pressed stop button fails a write to the archive |
| `Snapshots.CloseArchive` | gui/backup_inline.go:1502-1504 | The archive index is closed first, with the catalog writer still in order |
| `Snapshots.WriteDir` | gui/backup_inline.go:1464-1466 | A walk that got to its end has fed every write of it |
| `Snapshots.CloseBoth` | gui/backup_inline.go:1502-1507 | Both indexes are closed, each holding its own stream, or the attempt fails |
| `Snapshots.CloseUnlessStopped` | gui/backup_inline.go:1492-1507 | An empty archive ends the attempt, and a pressed stop button does so with the indexes left as they were; it is done exactly if anything was written to the archive, no cancel was seen and every request was confirmed |
| `Snapshots.NothingTakenIn` | gui/backup_inline.go:1492-1495 | The test for an empty archive, no byte in ended chunks and none in the next one, holds exactly if nothing was written |
| `Snapshots.Seal` | gui/backup_inline.go:1468-1507 | The files reported by the walk reach the session lists whatever becomes of the session |
| `Snapshots.Upload` | gui/backup_inline.go:1439-1507 | From a fresh session to both indexes closed: what they hold is what the walk wrote, and nothing else was taken in; done exactly if every request was confirmed, no cancel seen, and the walk got to its end having written something to the archive |
| `Snapshots.UploadCounted` | gui/backup_inline.go:1440-1507 | However an attempt ends, every digest it made known was stored, was not known before, was counted once as a new chunk, and as many chunks were uploaded; when it is done these are exactly the digests of both streams not known before, and new and reused chunks add up to the chunks of both streams; the failed counter grows by the refused uploads |
| `Snapshots.SendManifest` | gui/backup_inline.go:1550-1561 | An attempt is done only with its manifest uploaded |
| `Snapshots.BackupReal` | gui/backup_inline.go:1363-1566 | An attempt is done exactly if every request was confirmed, no cancel was seen, and the walk got to its end having written something to the archive; then it left one session with manifest and both indexes closed; it opened one session and committed none; the session lists are those of its walk, or empty after a failed walk |
| `Directories.TrySession` | gui/backup_inline.go:1025-1033 | An attempt that opens its session commits nothing; it gets through exactly if its snapshot was released and BackupReal got through, and then the session can be finished; however it ends the counters grew by what it took in |
| `Directories.TryDirectory` | gui/backup_inline.go:1025-1033 | An attempt opens at most one session and commits nothing; it gets through unless a snapshot that it asked for was refused or not released, the batch had none for it, a cancel was seen, a request was not confirmed, or the walk broke off or wrote nothing; without a session it counts nothing, leaves the lists as they were and is not tried again |
| `Directories.WaitForLock` | gui/backup_inline.go:1050-1074 | The wait after a lost session lasts 25 minutes, and ends early exactly when the stop button was seen |
| `Directories.LeaveSession` | gui/backup_inline.go:1037-1075 | A failed attempt closes its session, and is followed by another, after the wait, exactly if the session was lost, it was the first, and no cancel came during the wait |
| `Directories.AttemptDirectory` | gui/backup_inline.go:1022-1075 | At most two attempts: the second exactly if the first lost its session and no cancel was seen; each failed session is closed before the next connect; the counters grew by what all attempts took in, and the lists are the last one's |
| `Directories.FinishWithRetries` | gui/backup_inline.go:1105-1112 | Whatever is committed, at most five times, is the session as it stood, manifest and indexes included; it fails only if five requests were not confirmed, or one with an error not worth retrying |
| `Directories.FinishDirectory` | gui/backup_inline.go:1105-1127 | Only a ready session is finished, a failed finish, for a request that was not confirmed, drops it, and whatever was committed, confirmed or not, is of this directory and holds what this walk read |
| `Directories.EndDirectory` | gui/backup_inline.go:1078-1127 | After the attempts a pressed stop button ends the run with nothing committed; otherwise a failed directory is given up and a ready session finished, which fails only if a request was not confirmed |
| `Directories.BackupDirectory` | gui/backup_inline.go:1022-1127 | A directory ends confirmed with exactly the bytes its walk read, stopped with nothing committed, or not confirmed, and the last only if its last attempt failed, after two lost sessions or for another reason, or a request was not confirmed; whatever was committed holds what its last attempt read; the counters grew by what all its attempts took in; no session stays open |
| `Directories.SoundReadsBack` | gui/backup_inline.go:854-1259 | A snapshot committed by any run reads back, from any later store, as what one walk wrote |
| `RunTotals.AddsUp` | gui/backup_inline.go:988-1127 | What a run adds up is what its confirmed snapshots took in, and on top of it what the other attempts had counted |
| `Directories.CostsNothing` | gui/backup_inline.go:988-989 | Attempts add nothing to a counter exactly if none of them made a digest known, or reused a chunk, or opened a session |
| `RunTotals.ListsExactly` | gui/backup_inline.go:1091-1095 | The lists a run collects are those of the directories' own sessions exactly if no directory that opened none repeats an entry |
| `RunTotals.LostSessionCountsTwice` | gui/backup_inline.go:1024-1032 | A first session that is lost just before its manifest is confirmed makes the run count every new chunk of the directory twice |
| `RunTotals.OneChunkCountedTwice` | gui/backup_inline.go:1024-1032 | One byte, one chunk, two sessions: the directory is backed up whole, and its one new chunk is counted as two |
| `RunTotals.ErrorListedTwice` | gui/backup_inline.go:1091-1095 | A directory refused before its session opens makes the run list the unreadable file of the directory before it twice |
| `Sessions.CountError` | gui/backup_inline.go:1097-1103 | A failed directory is counted once |
| `Sessions.AccurateLater` | gui/backup_inline.go:1009-1127 | Directories reported good so far keep their snapshots through every later directory, and every snapshot of the run stays one that holds what the last attempt at some directory read |
| `Sessions.OneMoreReckoned` | gui/backup_inline.go:1091-1127 | Bytes, counters and lists are from one directory to the next the sums over all attempts and over the lists the directories left, although each session resets the lists |
| `Sessions.NextDirectory` | gui/backup_inline.go:1009-1127 | One turn of the directory loop keeps all of this; a stop pressed before it ends the run with nothing more committed |
| `Sessions.OutcomeOf` | gui/backup_inline.go:1201-1220 | A success is exactly no failed chunk, no failed directory and no read error |
| `Sessions.Conclude` | gui/backup_inline.go:1129-1236 | The four outcomes: failed, partial, success with exclusions and verified success, each exactly when it applies |
| `Sessions.SkippedToIssues` | gui/backup_status.go:134-144 | A read error becomes an issue with no path and the text as its reason |
| `Sessions.ExcludedToIssues` | gui/backup_status.go:161-170 | An excluded file becomes an issue with its path and the user policy as its reason |
| `Sessions.UnhinderedSucceeds` | gui/backup_inline.go:1129-1236 | If every request was confirmed and the last attempt at each directory got its snapshot and read it all, every directory is good, nothing failed or was skipped, and the outcome is a success |
| `Sessions.FiguresOf` | gui/backup_inline.go:1129-1236 | Bytes are exact; new and reused chunks and sessions are those of the confirmed snapshots plus what the attempts in vain had counted, and exact exactly if those counted nothing |
| `Sessions.Run` | gui/backup_inline.go:854-1259 | Over every run: all snapshots are sound, each holds what the last attempt at its directory read, no session is abandoned, at most two sessions per directory; the returned error, OnComplete and the outcome agree; a directory is reported good only with its snapshot; a run that found its directories and was not cancelled reports all of them, and succeeds if all its requests were confirmed and every directory was read without an error; failed is the number of refused uploads and bytes are exact; counters and lists are exact exactly if no attempt in vain counted anything and no directory without a session repeats an entry |
| `Sessions.AllGoodIsExact` | gui/backup_inline.go:1129-1236 | If every directory is good the lists are those of the walks, and if none needed a second session new and reused chunks are exact |
| `Sessions.OneDirectoryListsExact` | gui/backup_inline.go:609-611 | A run over one directory, as each directory backup is, has exact lists whatever becomes of it |
| `FolderRuns.RunsAreHonest` | gui/backup_inline.go:761-791 | What a batch sees of a folder is its result, none if cancelled, and whether it returned an error; and what the batch relies on, that a success result and a nil error come together, every run guarantees |
| `StreamBackups.ReadLoop` | directorybackup/main.go:529-545 | Data that arrives together with the end of the stream is written; the loop fails exactly for a read error or a refused chunk |
| `StreamBackups.WriteStream` | directorybackup/main.go:522-551 | From the first buffer to the closed index, which holds exactly the stream; it fails exactly for a read error or a request that was not confirmed |
| `StreamBackups.SendStream` | directorybackup/main.go:500-551 | The single index of the session holds the stream; as many chunks are uploaded as the stream has that the previous index does not name, so none of the previous index again |
| `StreamBackups.BackupStream` | directorybackup/main.go:500-559 | A stream backup succeeds exactly if the stream was read without an error and every request was confirmed; whatever it commits, also when it fails because an answer was lost, has its manifest and holds exactly the stream; a successful one committed once and uploaded just the chunks missing in the previous index |
| `StreamBackups.WritersAgree` | directorybackup/main.go:60-163 | Given the same stream, however cut, and the same known chunks, the two programs upload the same number of chunks, add the same ones to their stores, and produce the same index, known chunks and counts of new and reused chunks, which add up to the chunk count |
| `Outcomes.BackupStatus.Merge` | gui/backup_status.go:114-129 | Merging adds counters, appends lists and keeps the worse outcome; merging nothing changes nothing |
| `Aggregates.MergedSums` | gui/backup_status.go:116-124 | After merging any results the new, reused and failed chunks and the bytes are each the sum of that field over the results |
| `Aggregates.MergedLists` | gui/backup_status.go:125-128 | Each list is the lists of that kind of the results, one after the other |
| `Aggregates.MergedOutcome` | gui/backup_status.go:92-120 | The outcome is failed if one of the results failed, partial if otherwise one is partial, and a verified success only if all are |
| `Outcomes.MergeFirst` | gui/backup_status.go:92-129 | Any one of the results may as well be merged first |
| `Outcomes.MergeOrderIrrelevant` | gui/backup_status.go:92-129 | The aggregate does not depend on the order of merging, but for the order of its lists |
| `Outcomes.MergedSuccess` | gui/backup_status.go:86-112 | The aggregate is a success exactly if all its parts are |
| `ParallelFolders.Batch.Acquire` | gui/backup_inline.go:738-741 | The main loop takes a slot only while one is free; the most slots ever in use stay within the limit |
| `ParallelFolders.Batch.Launch` | gui/backup_inline.go:742-760 | With a slot in hand the next folder of the list is started, or, stopped, the rest is given up as one error and the slot returned |
| `ParallelFolders.Batch.MergeResult` | gui/backup_inline.go:778-791 | A finished folder is merged once, with its error if it had one |
| `ParallelFolders.Batch.Join` | gui/backup_inline.go:782-786 | A folder that ended without a result makes the aggregate failed |
| `ParallelFolders.Batch.Release` | gui/backup_inline.go:758-759 | A merged folder gives its slot back |
| `ParallelFolders.Batch.GiveUp` | gui/backup_inline.go:742-752 | Folders not started are an error |
| `ParallelFolders.Batch.RunAll` | gui/backup_inline.go:737-795 | In every interleaving: never more than parallel folders hold a slot, the folders started are a prefix of the list and come in once each, some step is always possible until all is done, and it ends |
| `ParallelFolders.OrderIrrelevant` | gui/backup_inline.go:737-795 | Completion order leaves no trace in the aggregate, but for the order of its lists |
| `ParallelFolders.CollectedHonestly` | gui/backup_inline.go:780-791 | No error was recorded exactly if nothing was given up and the aggregate is a success |
| `ParallelFolders.CollectedInAnyOrder` | gui/backup_inline.go:737-795 | The aggregate is that of the started folders merged one after the other |
| `ParallelFolders.FinishedHonestly` | gui/backup_inline.go:737-850 | After the last folder, no error exactly if all folders were started and went well |
| `ParallelFolders.Settles` | gui/backup_inline.go:797-850 | A snapshot that fails to be released, or a folder never started, forbids a success, and nothing else changes |
| `ParallelFolders.TellsParts` | gui/backup_inline.go:780-850 | Said of the fields: sums of counters, entries of lists and worst outcome of the folders started, and never a success if something was left undone |
| `ParallelFolders.Settle` | gui/backup_inline.go:826-850 | The same for the aggregate in place |
| `ParallelFolders.GiveUpAll` | gui/backup_inline.go:676-697 | A cancel before the first folder fails the batch with nothing counted |
| `ParallelFolders.RunFolders` | gui/backup_inline.go:672-851 | On every path, fallback from a refused snapshot included, the errors, the outcome and the counters agree; folders are left out only after a stop |
| `ParallelFolders.RunBackup` | gui/backup_inline.go:612-653 | For several folders, as many at a time as wanted, at least one and at most all, or one at a time after a refused snapshot: the flag given to OnComplete is the returned error being nil and the outcome being a success, which is the case exactly if every folder was started and went well and the snapshot was released; each counter is the sum over the folders started, each list has the entries of theirs, and the outcome is the worst of theirs, or failed or partial if something was left undone |
| `BinPacking.BinPackFolders` | gui/backup_analysis.go:365-403 | The in-place loop is first fit |
| `BinPacking.PackConserves` | gui/backup_analysis.go:365-403 | Every folder ends up in exactly one bin, whatever the sizes |
| `BinPacking.PackPacks` | gui/backup_analysis.go:365-403 | Bins stay within the target, and no folder would have fitted into an earlier bin |
| `BinPacking.WrapsIntoOneBin` | gui/backup_analysis.go:377-396 | From a target of 2^63 on two folders as large as the target share one bin: the used size wraps around |
| `BinPacking.FitTestSound` | gui/backup_analysis.go:377-396 | No bin ever exceeds the target, for all folders, exactly if the target is below 2^63 |
| `FirstFitDecreasing.PackHeaded` | gui/backup_analysis.go:207-210 | On the largest-first order every bin opens with its largest folder, ever smaller from bin to bin |
| `FirstFitDecreasing.BigHeads` | gui/backup_analysis.go:365-403 | If bin j opens with more than half the target, every packing needs j bins |
| `FirstFitDecreasing.ManyLater` | gui/backup_analysis.go:365-403 | Otherwise the later bins hold at least two folders each, but for the last |
| `FirstFitDecreasing.SmallTail` | gui/backup_analysis.go:365-403 | The folders of the later bins and the earlier bins they did not fit into exceed m targets together, so every packing needs more than m bins |
| `FirstFitDecreasing.ThreeHalves` | gui/backup_analysis.go:365-403 | Twice the number of bins is at most three times that of any valid packing |
| `SplitPlans.SortLargestFirst` | gui/backup_analysis.go:207-210 | The sorted folders are the same folders, largest first |
| `SplitPlans.InfosOf` | gui/backup_analysis.go:180-193 | Each folder keeps its path, name and size, or counts as 500 GiB if access was denied |
| `SplitPlans.BackupAnalysis.constructor` | gui/backup_analysis.go:178-224 | The analysis holds every sized folder, largest first, and the wrapped total; an expired scan never splits |
| `SplitPlans.BackupAnalysis.ApplyConfiguredSplit` | gui/backup_split_api.go:12-29 | The configured policy decides; the division fails exactly for a split with bin size zero, and without a split one job is suggested |
| `SplitPlans.SplitSizeBytes` | gui/config.go:202-208 | Without a configured number, or with a negative one, the bin size is 150 GiB |
| `SplitPlans.SplitSizeWraps` | gui/config.go:202-208 | A configured number of GiB counts modulo 2^34 |
| `SplitPlans.SplitSizeLimits` | gui/config.go:202-208 | Configured sizes that make packing safe, and those that make the bin size zero, exactly |
| `SplitBackups.CreateSplitJobs` | gui/backup_analysis.go:244-361 | Every analysed folder is in exactly one of the jobs before those for the roots' own files. Without a split that is one job for everything, 1 of 1, with the analysed total, the base ID and nothing excluded; with one it is the plan: a folder has a job of its own, with its size and ID, exactly if it is larger than a bin or access was denied, and the others are in jobs of one bin each |
| `SplitBackups.Divide` | gui/backup_analysis.go:257-361 | The steps of a split give the plan, or find that there is nothing to divide exactly if there are no folders |
| `SplitBackups.PlanDivides` | gui/backup_analysis.go:257-361 | The plan said job by job: contents, sizes, IDs and exclusions of the single folders' jobs, of the packed ones and of those for the roots' own files |
| `SplitJobs.Separate` | gui/backup_analysis.go:269-279 | Folders larger than a bin go alone, the others are packed, both in their order |
| `SplitJobs.AddRemainders` | gui/backup_analysis.go:334-352 | One remainder job for each root with files of its own |
| `SplitJobs.Number` | gui/backup_analysis.go:354-358 | Jobs are numbered in the end, when their number is known |
| `SplitJobs.PickAll` | gui/backup_analysis.go:269-279 | Nothing is lost between the folders that go alone and the others |
| `SplitJobs.PickExactly` | gui/backup_analysis.go:273-279 | A folder goes alone exactly if it is larger than a bin or access was denied, and is packed otherwise, as often as it was found |
| `SplitJobs.PickInOrder` | gui/backup_analysis.go:273-279 | Both kinds keep the order of the folders |
| `SplitCoverage.EveryFolderOnce` | gui/backup_analysis.go:244-361 | Every analysed folder is in exactly one job before the remainder jobs, and the sizes of those jobs add up to the total |
| `SplitCoverage.RemaindersExact` | gui/backup_analysis.go:338-352 | A remainder job, with the ID of its root and a suffix, backs up that root without exactly the analysed folders directly below it |
| `SplitCoverage.JobsNumbered` | gui/backup_analysis.go:354-358 | Indices run 1 to n and every job knows n |
| `SplitCoverage.PackedJobsFit` | gui/backup_analysis.go:313-332 | A packed job has the size of its folders and is no larger than a bin |
| `SplitCoverage.PlanThreeHalves` | gui/backup_analysis.go:244-361 | The packed jobs of a plan are at most 3/2 of those of any other packing |
| `SplitCoverage.NothingToDoUnreachable` | gui/backup_analysis.go:281-295 | With the total the sum of the sizes, a split always has something to split |
| `SplitEstimates.NeighboursExceed` | gui/backup_analysis.go:365-403 | Two neighbouring bins together exceed the target |
| `SplitEstimates.SuggestionIsAnEstimate` | gui/backup_split_api.go:12-29 | If no folder goes alone the suggested number S of jobs satisfies S <= packed jobs <= 2S - 1; where the ceiling division wraps around S is 2 |
| `SplitEstimates.TwoIsAnEstimateExactly` | gui/backup_split_api.go:12-29 | Where the division wraps around, the 2 that is suggested is an estimate for all folders of a total exactly if the total is at most two bins and one byte, or two bins and two bytes with an even bin size |
| `SplitEstimates.FourBins` | gui/backup_analysis.go:365-403 | Four bins of an even size hold at least two bins and three bytes |
| `Schedules.ParseScheduleTime` | gui/scheduler.go:384-393 | A readable schedule is an hour and a minute in range |
| `Schedules.NextRunIsFirst` | gui/scheduler.go:358-378 | The next run is the first instant of the schedule that is not before now, less than a day ahead; there is none exactly if the schedule cannot be read |
| `Schedules.RecalculateNextRuns` | gui/scheduler.go:551-601 | Missing and unreadable next runs are repaired, all others kept |
| `Schedules.RepairSettles` | gui/scheduler.go:551-601 | Repairing again changes nothing, a valid next run stays even in the past, and repair never makes a job overdue |
| `Provisioning.MergeProvisionedJobs` | gui/scheduler.go:458-493 | The loop with its index is an upsert of each declared job, the last stored job with the ID being meant |
| `Provisioning.MergeKeepsStored` | gui/scheduler.go:458-493 | Stored jobs keep their place, ID and last run, and change only if declared |
| `Provisioning.ReplaceTwice` | gui/scheduler.go:471-483 | Replacing twice is replacing once, except exactly for an enabled job with a changed, unreadable schedule and a next run of its own |
| `Provisioning.MergeStores` | gui/scheduler.go:458-493 | Every declared job is stored as declared |
| `Provisioning.MergeIsIdempotent` | gui/scheduler.go:458-493 | Provisioning the same jobs again at any later time changes nothing |
| `Provisioning.Accepted` | gui/scheduler.go:501-544 | Jobs that do not validate are skipped, so all merged schedules can be read |
| `Schedulers.StepKeepsClaims` | gui/scheduler.go:779-794 | No step of tick, startup, run-now, edits, provisioning or runners gives a job a second claim |
| `Schedulers.ClaimsSpelledOut` | gui/scheduler.go:779-794 | Two claimed runners are never for the same job, and a job counts as running just when it has one |
| `Schedulers.ClaimsAlwaysExact` | gui/scheduler.go:779-1022 | In every interleaving the map of running jobs is exactly the set of unreleased claims, at most one per job |
| `MissedRuns.StepKeepsPending` | gui/scheduler.go:458-974 | A step changes a next run only as a finished run of that job, an edit, a delete or a declared new schedule; it disables the job only as one of these or a declaration that says so |
| `MissedRuns.NextRunStays` | gui/scheduler.go:458-974 | Over any sequence of other steps a next run stays, and its job stays enabled unless a declaration disables it |
| `MissedRuns.TickStartsOverdue` | gui/scheduler.go:715-773 | Every tick starts a runner for every overdue job, however late |
| `MissedRuns.ClaimedOrRunning` | gui/scheduler.go:884-891 | A runner claims its job, or finds a run of it under way |
| `MissedRuns.FinishedIsNotOverdue` | gui/scheduler.go:938-974 | A finished run leaves its job not overdue, with the first time of the stored schedule as its next run |
| `MissedRuns.UntouchedIsStillDue` | gui/scheduler.go:715-891 | A runner whose job was neither touched nor disabled since its tick finds it still overdue, at the same time |
| `RepeatedRuns.StepStands` | gui/scheduler.go:458-974 | One step of the scheduler, or of the user on other jobs, moves a next run only as a recorded run of that job |
| `RepeatedRuns.RunStands` | gui/scheduler.go:458-974 | Over any sequence of such steps the next run is the one that the last recorded run computed |
| `RepeatedRuns.DueExactly` | gui/scheduler.go:715-974 | An overdue job with an ID of its own is overdue at the end exactly if no run of it was recorded meanwhile, or the next run computed then has passed too |
| `RepeatedRuns.RepeatsExactly` | gui/scheduler.go:715-974 | A claim repeats a run exactly if, while the runner waited, a run of its job was recorded whose next run has not come yet |
| `RepeatedRuns.StaleRunnerRunsTwice` | gui/scheduler.go:715-974 | It happens: two ticks a minute apart, the first runner done before the second claims |
| `SchedulerApps.App.ClaimJob` | gui/scheduler.go:779-787 | A claim succeeds just when there is none, and leaves one |
| `SchedulerApps.App.ReleaseJob` | gui/scheduler.go:790-794 | A release removes the claim |
| `SchedulerApps.App.CheckAndRunScheduledJobs` | gui/scheduler.go:715-773 | The tick is a step of the state machine; StepEffects.TickStarts says which runners it starts |
| `SchedulerApps.App.HandleStartupRun` | gui/scheduler.go:687-709 | So is the startup run, see StepEffects.StartupStarts |
| `SchedulerApps.App.RunScheduledJobNow` | gui/scheduler.go:1002-1022 | So is run-now, which claims at once and fails if the job is running or unknown |
| `SchedulerApps.App.StartRunner` | gui/scheduler.go:884-891 | So is the start of a runner |
| `SchedulerApps.App.RecordRun` | gui/scheduler.go:938-974 | So is the record of a run, which goes to the job as it is stored now |
| `SchedulerApps.App.FinishRunner` | gui/scheduler.go:884-891 | So is the release at its end |
| `SchedulerApps.App.SaveScheduledJob` | gui/scheduler.go:72-123 | So is saving a job, refused unless it validates, see StepEffects.SaveStores |
| `SchedulerApps.App.UpdateScheduledJob` | gui/scheduler.go:192-256 | So is updating a stored job, see StepEffects.UpdateReplaces |
| `SchedulerApps.App.DeleteScheduledJob` | gui/scheduler.go:259-292 | So is deleting one, see StepEffects.DeleteRemoves |
| `SchedulerApps.App.ReconcileProvisionedJobs` | gui/scheduler.go:501-544 | So is provisioning, see StepEffects.ProvisionMerges |
| `SchedulerApps.App.RepairNextRuns` | gui/scheduler.go:551-601 | So is the repair of next runs, see StepEffects.RepairSets |
| `StepEffects.NextIsFirstTime` | gui/scheduler.go:358-393 | The next run in nanoseconds: the hour and minute of the schedule, if they are 0 to 23 and 0 to 59, on the first day on which they are not past; nothing otherwise |
| `StepEffects.ValidatesExactly` | gui/scheduler.go:398-411 | A job passes exactly if it has a name and something to back up, and a schedule that can be read, or none and is to run at startup |
| `StepEffects.TickStarts` | gui/scheduler.go:715-773 | The tick starts a runner for each job that is enabled and past its next run, as often as the job is stored, and for no other |
| `StepEffects.StartupStarts` | gui/scheduler.go:687-709 | The startup run starts one for each job that is enabled and to run at startup, and for no other |
| `StepEffects.StartsInOrder` | gui/scheduler.go:687-773 | Both start the jobs in the order in which they are stored |
| `StepEffects.RunNowStarts` | gui/scheduler.go:1002-1022 | Run-now starts the first job with the ID under a claim, or does nothing if it is running or unknown |
| `StepEffects.ClaimDoes` | gui/scheduler.go:779-891 | A runner takes the claim if it is free and is gone if it is not; nothing else changes |
| `StepEffects.RecordDoes` | gui/scheduler.go:938-974 | The end of a run changes only the first job with its ID: it ran now, and runs next at the first time of its stored schedule; an unsaved record changes no job |
| `StepEffects.ReleaseDoes` | gui/scheduler.go:790-891 | The claim is given back and the runner is gone; nothing else changes |
| `StepEffects.SaveStores` | gui/scheduler.go:72-123 | A job that passes is stored after the others exactly as sent, with the first time from now on as its next run; another one changes nothing |
| `StepEffects.UpdateReplaces` | gui/scheduler.go:192-256 | The first job with the ID becomes what was sent, but for its last run, a compression that was not sent, and the next run, which is the first time from now on; nothing else changes |
| `StepEffects.DeleteRemoves` | gui/scheduler.go:259-292 | Exactly the jobs with the ID are gone |
| `StepEffects.WithoutInOrder` | gui/scheduler.go:275-281 | A delete keeps the order of the other jobs |
| `StepEffects.AcceptedExactly` | gui/scheduler.go:515-525 | Of the declared jobs exactly those that pass are merged, as often as they are declared |
| `StepEffects.ProvisionOneMore` | gui/scheduler.go:458-493 | One more declared job takes the place of the last one with its ID, made from its name if it has none, or is added behind the others; it is stored as declared, with the last run it had; its next run stays if that can be read and the schedule did not change, is the declared one if the job is not to run or, with a schedule that did not change or is new, brings one that can be read, and is the first time from now on otherwise |
| `StepEffects.ProvisionMerges` | gui/scheduler.go:501-544 | Provisioning merges the declared jobs that pass into the stored ones and changes nothing else |
| `StepEffects.RepairSets` | gui/scheduler.go:551-601 | A next run that is missing or cannot be read becomes the first time from now on for an enabled job with a schedule; nothing else changes |
| `ExtendedAttributes.BuildEABuffer` | gui/backup_streams_windows.go:269-293 | The buffer, appended to and back-patched in place, is the layout of the expressible entries |
| `ExtendedAttributes.LayoutSnoc` | gui/backup_streams_windows.go:272-291 | Padding, pointing the previous entry here and appending is the layout with one entry more |
| `ExtendedAttributes.EntriesAligned` | gui/backup_streams_windows.go:269-293 | Every entry starts at a multiple of four and points to the next one; the last points nowhere |
| `ExtendedAttributes.EntryReads` | gui/backup_streams_windows.go:180-199 | An entry reads back wherever it stands in a buffer |
| `ExtendedAttributes.QueryEAs` | gui/backup_streams_windows.go:180-199 | On any buffer the parser ends and reads only inside it |
| `ExtendedAttributes.RoundTrip` | gui/backup_streams_windows.go:180-293 | Written and read back: all entries that can be expressed, without those only Windows may set, whatever follows in the buffer |
| `ExtendedAttributes.RoundTripExactly` | gui/backup_streams_windows.go:180-293 | Said of the entries: one comes back as often as it was there exactly if its name has 1 to 255 bytes and its value at most 65535, and its name does not start with $KERNEL. in capitals or not |
| `ExtendedAttributes.ExpressedExactly` | gui/backup_streams_windows.go:273-275 | What is written, exactly |
| `ExtendedAttributes.SettableExactly` | gui/backup_streams_windows.go:191-193 | What is kept of what is read, exactly |
| `ExtendedAttributes.ExpressiblesInOrder` | gui/backup_streams_windows.go:272-291 | Entries are written in their order |
| `ExtendedAttributes.SettableInOrder` | gui/backup_streams_windows.go:180-199 | Entries are read in their order |
| `ExtendedAttributes.EntryBytes` | gui/backup_streams_windows.go:280-290 | The bytes of an entry: pointer, flags, lengths, name, a zero byte, value |
| `ExtendedAttributes.ZerosRead` | gui/backup_streams_windows.go:180-199 | A buffer of zeros reads as one empty entry |
| `AlternateStreams.StreamNames` | gui/backup_streams_windows.go:122-143 | On any buffer the stream parser ends, reads only inside it, and yields what the records say |
| `StreamRecords.RecordReads` | gui/backup_streams_windows.go:123-137 | A record reads back wherever it stands in a buffer |
| `StreamRecords.RecordBytes` | gui/backup_streams_windows.go:123-137 | The bytes of a record: pointer, name length, size, allocation size, and the units of the name from byte 24 on |
| `StreamRecords.RecordsRoundTrip` | gui/backup_streams_windows.go:122-143 | The layout of any list of streams, whatever fills up its records, reads back as exactly their names and sizes |
| `AlternateStreams.OverdrawnExactly` | gui/backup_streams_windows.go:83-96 | One stream overdraws the budget exactly if its listed size is within both limits and its content is longer than what is left |
| `AlternateStreams.OverdrawnByOne` | gui/backup_streams_windows.go:83-96 | It happens, with a stream that grew by one byte |
| `AlternateStreams.Budget.TakeStreams` | gui/backup_streams_windows.go:79-100 | A stream is recorded with its content exactly if it is small, fits the rest of the budget and can be read; the budget goes down by what was recorded and is overdrawn by at most one stream that grew |
| `LegacyMigration.CopyNoClobber` | gui/legacy_datadir.go:107-129 | A file that is there already stays |
| `LegacyMigration.StepSound` | gui/legacy_datadir.go:49-129 | Every step of a migration keeps the markers truthful and replaces nothing in the new folder |
| `LegacyMigration.StillKnows` | gui/legacy_datadir.go:49-100 | What one process relies on survives whatever the others and the user do |
| `LegacyMigration.AlwaysSound` | gui/legacy_datadir.go:49-129 | Any number of processes, crashes at any step, user saves in between: a marker is there only with what it stands for, no legacy file changes, no new file is lost |
| `LegacyMigration.MigrationReplacesNothing` | gui/legacy_datadir.go:107-129 | A migration step never replaces a file of the new folder or touches one of the old |
| `LegacyMigration.UndisturbedCompletes` | gui/legacy_datadir.go:49-100 | A migration nobody disturbs ends with both markers and a copy of every data file |
| `LegacyMigration.NothingToDo` | gui/legacy_datadir.go:55-64 | Where either marker stands, or there is no legacy configuration, a migration nobody disturbs changes nothing |
| `LegacyMigration.Folders.CopyDataFiles` | gui/legacy_datadir.go:70-85 | With anything happening in between, a completed copy loop has every data file in the new folder |
| `LegacyMigration.Folders.StatMigrated` | gui/legacy_datadir.go:55-58 | The first call is the machine's first step: it ends the process exactly if the new folder's marker is seen |
| `LegacyMigration.Folders.StatConfig` | gui/legacy_datadir.go:62-69 | Without a legacy configuration, or if the folder cannot be created, the process ends |
| `LegacyMigration.Folders.ReadLegacy` | gui/legacy_datadir.go:71-80 | A missing file is passed over, an unreadable one ends the process |
| `LegacyMigration.Folders.CopyDataFile` | gui/legacy_datadir.go:81-84 | A file is copied unless one is there; an error ends the process |
| `LegacyMigration.Folders.MarkNew` | gui/legacy_datadir.go:86-89 | The new folder is marked once all files were copied; an error ends the process |
| `LegacyMigration.Folders.MarkLegacy` | gui/legacy_datadir.go:90-97 | The old folder is marked last, if it can be |
| `LegacyMigration.Folders.MigrateLegacyDataDir` | gui/legacy_datadir.go:49-100 | Each call is a step of the machine, with anything happening in between. A migration that reports done has its marker and a copy of each of the four data files; it ends without them only if a call failed or there was nothing to take over |
| `ArchivePaths.SplitJoin` | gui/restore_inline.go:576-603 | Components without slashes survive joining and splitting |
| `ArchivePaths.JoinSplit` | gui/restore_inline.go:576-603 | A path survives splitting and joining |
| `ArchivePaths.BelowIsProperPrefix` | gui/restore_inline.go:550-563 | The prefix test on strings is a proper prefix of components |
| `RestorePaths.NormalizeIncludes` | pbscommon/pxar_reader.go:540-550 | Normalised includes are not empty and neither start nor end with a slash |
| `RestorePaths.NormalizedInOrder` | pbscommon/pxar_reader.go:540-550 | Each path is normalised for itself, those that are not blank are kept, and they stay in order |
| `RestorePaths.TrimmedOnly` | pbscommon/pxar_reader.go:540-550 | Nothing but slashes is cut off, at both ends |
| `RestorePaths.PieceExactly` | pbscommon/pxar_reader.go:540-550 | A path is dropped exactly if it has nothing but slashes and backslashes |
| `RestorePaths.MatchesExactly` | pbscommon/pxar_reader.go:555-586 | Said of components: selected is what is at or below an include, visited also what is on the way to one; without includes everything |
| `RestorePaths.CutAtLastSlash` | gui/restore_inline.go:605-611 | The parent is the text before the last slash |
| `RestorePaths.CommonAncestorDir` | gui/restore_inline.go:576-603 | For two or more includes the prefix is their longest common run of components; for one, its parent |
| `RestorePaths.KeptIsBelow` | gui/restore_inline.go:530-566 | The rewriter drops exactly the paths that are not strictly below the prefix |
| `RestorePaths.OntoOne` | gui/restore_inline.go:514-566 | Joining one component to a folder: an empty one or a dot stays, two dots go up, any other goes down |
| `RestorePaths.OntoInTurn` | gui/restore_inline.go:514-566 | Components are joined one after the other |
| `RestorePaths.RewriterInjective` | gui/restore_inline.go:530-566 | Two kept paths never end up in the same place |
| `RestorePaths.TargetsFollowPaths` | gui/restore_inline.go:530-566 | One target lies at or below another just when the paths do |
| `RestorePaths.SelectionKept` | gui/restore_inline.go:530-566 | Every selected path is restored, but for one equal to the prefix |
| `RestorePaths.MatchedAny` | gui/restore_inline.go:844-873 | The loop finds whether an include, or anything below one, was extracted |
| `RestorePaths.MatchedExactly` | gui/restore_inline.go:844-873 | What the check says: some include other than the prefix was found in the snapshot |
| `RestorePaths.CheckKeepsPromise` | gui/restore_inline.go:844-873 | The check is right for every snapshot exactly if the prefix is not itself an include |
| `ServerTables.NormalizedIsSound` | gui/pbs_server.go:71-111 | What passes has one auth method with a credential that was typed for that very token or user; nothing else changes |
| `ServerTables.NeverBorrowed` | gui/pbs_server.go:71-111 | A credential of another token or user is never taken over |
| `ServerTables.CredentialKept` | gui/pbs_server.go:71-111 | The credential stored is the one sent, or without one that of the stored entry if it is for the same token or user; an entry is refused exactly if it names neither, or the credential is required and missing |
| `ServerTables.RefusedExactly` | gui/pbs_server.go:113-191 | Otherwise an entry is refused exactly if ID, name, address or datastore is missing or a format is wrong |
| `ServerTables.PBSServer.NormalizeServerAuth` | gui/pbs_server.go:71-111 | The fields are rewritten in place as specified |
| `ServerTables.PBSServer.Admit` | gui/pbs_server.go:183-191 | An entry passes exactly if it normalises and its fields are valid |
| `ServerTables.Config.constructor` | gui/config.go:104-107 | The empty table has no default |
| `ServerTables.Config.AddPBSServerMem` | gui/config.go:583-608 | A server is added exactly if it passes and its ID is new; the first becomes the default |
| `ServerTables.Config.UpdatePBSServerMem` | gui/config.go:625-643 | A server is replaced exactly if it is stored and passes, keeping what it does not bring |
| `ServerTables.Config.DeletePBSServerMem` | gui/config.go:656-677 | Exactly the server goes; a deleted default gives way to a stored one |
| `ServerTables.Config.SetDefaultPBSMem` | gui/config.go:698-705 | The default changes exactly to a stored server |
| `ServerTables.Config.GetPBSServer` | gui/config.go:549-574 | The server asked for, or the default; nothing exactly if there is none |
| `RestoreCache.KeyTextExact` | gui/restore_cache.go:59-67 | The digested text stands for one key only exactly if no part of the key contains a zero byte |
| `RestoreCache.HasTwin` | gui/restore_cache.go:59-67 | A key with a zero byte in a part shares its text with another key |
| `RestoreCache.KeyTextIs` | gui/restore_cache.go:59-67 | The text is server, datastore, namespace, type, ID and time in decimal, each followed by a zero byte |
| `RestoreCache.Cache.SaveSnapshotTreeCache` | gui/restore_cache.go:109-137 | A saved listing lies under the digest of its key, with the key inside |
| `RestoreCache.Cache.LoadSnapshotTreeCache` | gui/restore_cache.go:83-107 | A hit returns entries saved under that very key, even if digests collide or files were copied |
| `RestoreCache.Cache.FilesChange` | gui/restore_cache.go:142-175 | Trimming and copied files keep that true |
| `DiskPins.ResolvesAsMeant` | gui/diskpin.go:171-202 | Looking a reference up gives the disk with that identity, the disk pinned to that path, or the path as it is |
| `DiskPins.KindsOfIDs` | gui/diskpin.go:14-68 | The four kinds of reliable identities, and the two kinds of hints that are not |
| `DiskPins.PathOfFirst` | gui/diskpin.go:117-131 | Of several disks with one identity the one listed first counts |
| `DiskPins.PinnedToItsDisk` | gui/diskpin.go:113-202 | With pins on distinct paths a pinned reference is that disk where it is now, or an error, never the disk that took its place, exactly if some reliable identity is listed; without any it is passed through unchanged |
| `DiskPins.ResolvePinnedDevices` | gui/diskpin.go:113-166 | Each reference up to the first error resolves to what it stands for, each path once; without reliable identities nothing changes |
| `DiskPins.FirstOnlyGrows` | gui/diskpin.go:150-165 | The resolved paths are in the order in which they come first |
| `DiskPins.CollectPins` | gui/diskpin.go:208-226 | The pins of a run are those of the disks now at the resolved paths |
| `DiskPins.LastAtIsLast` | gui/diskpin.go:208-226 | Of several disks at one path the one listed last counts |
| `DiskPins.MergeDiskPins` | gui/diskpin.go:231-246 | New pins replace old ones of the same disk, and a change is reported exactly if there is one |
| `PinHistories.FollowsExactly` | gui/diskpin.go:171-202 | A reference to a drive path stands for a disk, in every later list that has a reliable identity, exactly if that disk alone is pinned there |
| `PinHistories.FollowsWhereListed` | gui/diskpin.go:133-138 | That guard is exact: in a list without a reliable identity the reference is passed through, and then it means no disk |
| `PinHistories.CollectedAt` | gui/diskpin.go:208-226 | Every new pin is at the path where its disk was found |
| `PinHistories.PinnedAfterRun` | gui/diskpin.go:208-246 | After a run that resolved a pinned reference the pin is at the saved path exactly if the disk was found there |
| `PinHistories.GuaranteeSurvives` | gui/diskpin.go:113-246 | The guarantee survives a run, for every later list of disks that has a reliable identity, exactly if the run found the disk at its saved path |
| `PinHistories.MergeKeepsDistinct` | gui/diskpin.go:231-246 | The merge keeps pins on distinct paths exactly if no stored pin that the run does not renew is at a path where it pins another disk |
| `PinHistories.PinnedAfterRuns` | gui/diskpin.go:208-246 | Over any number of runs a pin is where the last run that resolved its disk found it |
| `PinHistories.FollowsAfterRuns` | gui/diskpin.go:113-246 | After any number of runs a reference stands for a disk exactly if that disk, and no other one, was last resolved at the saved path, or was stored there and not resolved since |
| `PinHistories.PinMovesReferenceStays` | gui/diskpin.go:208-246 | A disk that moved: the pin follows it, the saved reference does not, and the next run takes the other disk |
| `PinHistories.PinsCollide` | gui/diskpin.go:208-246 | A disk found at the path of an absent one: both are pinned there, and the reference may then stand for either |
| `Progress.Estimate` | gui/backup_inline.go:357-387 | Progress goes from 0.1 in proportion to the part archived and stops at 0.9; without a total it moves with the megabytes archived, modulo 100 |
| `Progress.Reporter.AfterChunk` | gui/backup_inline.go:357-387 | A report is due after more than 10 MiB and is the estimate, or the last report if that was higher; reports never go back and stay within 0.1 and 0.9, whatever the size scan stores meanwhile |

## Left out

- Compression, encryption, the HTTP/2 transport, retries inside the client library, and the PXAR, catalog and blob formats: a request, its retries included, succeeds or fails, and a failed one may have been carried out.
- Snapshots.WriteDir: models the recursive walk as an arbitrary sequence of writes to the two callbacks; the order in which directories are read and the archive's bytes are not modelled.
- Snapshots.SendManifest: a retried manifest upload is one request; the list of files inside the manifest, the NTFS metadata and status side files are not modelled.
- PbsClients.PbsClient.Connect: always succeeds, as the source's Connect returns no error; an unusable connection shows as failures of the requests after it.
- ChunkWriters.ChunkState.EOF: feeds the checksum of the last chunk after its upload; the source feeds it before, which nobody can observe because a writer whose upload failed is not used again.
- ChunkWriters.ChunkState.MarkThenStore: the two programs' writers are one class with a flag, since they differ in the order of marking and uploading only; the command-line client has no failed counter.
- ChunkWriters.ChunkState.Note: positions are unbounded; the source's 64-bit counters would wrap after 2^64 bytes. Digests are byte strings, not their hexadecimal text.
- Chunkers.Chunker.constructor: the table of 256 words is a parameter, and the unused discriminator is left out.
- Sessions.Run: messages, times, logs, the backup ID, panics and the destination lock are left out; a run without a cancel context is a run whose stop button is never pressed. Skipped-file lists that only feed messages are left out.
- ParallelFolders.RunFolders: each folder's run is represented by the result it would have if it were started; Sessions.Run and FolderRuns.RunsAreHonest justify what is assumed of it. The snapshot call either refuses, or calls back once and may fail to release.
- Directories.TryDirectory: asking for a snapshot, or releasing it, is one answer that may be a refusal; which volumes it covers is not modelled.
- Progress averages, statistics and the per-folder backup IDs of a batch.
- directorybackup/main.go: backup_real, backup_parallel and backup_many, whose sessions are those of the GUI without retries and cancel; the writer and the stream backup are modelled.
- Machine (disk image) backups and their fixed indexes.
- SplitPlans.BackupAnalysis.constructor: starts from the sizes found; listing the directories, exclusions and the time limit are outside. Sizes are 64-bit and their sum wraps as in the source.
- SplitCoverage.EveryFolderOnce: speaks of the split; the single job of an unsplit backup lists the analysed folders only, without files directly in a root.
- Schedules.NextRunIsFirst: days have 24 hours; time zones and clock changes are not modelled. RFC 3339 text (section 5.6 of RFC 3339) is a readable instant, unreadable or absent.
- Schedulers.ClaimsAlwaysExact: loading, changing and writing the jobs file is one step, although the source holds no lock across it.
- Schedulers: job history, retention of old entries, e-mail, and the backup itself between claim and record.
- Provisioning.MergeIsIdempotent: asks for distinct IDs among the declared jobs and schedules that can be read; the second is what reconciling checks first, the first is not, as IDs made from names may coincide.
- ExtendedAttributes.RoundTrip: asks for at least one expressible entry; ExtendedAttributes.ZerosRead shows what an empty buffer would read as, and the caller writes none then.
- ExtendedAttributes.QueryEAs: the system call that fills the buffer, and the growth of the buffer of AlternateStreams.StreamNames, are outside; decoding UTF-16 is a function parameter.
- AlternateStreams.Budget.TakeStreams: asks for sizes that are not negative, which the file system guarantees.
- LegacyMigration.AlwaysSound: temporary files of a copy are not modelled, a copy appears whole or not at all; the user saves files but does not delete any.
- RestorePaths.RewriterInjective: asks for paths without empty, one-dot and two-dot components; the archive reader refuses the others.
- The other restore modes' checks of host and snapshot type, and writing the extracted files.
- ServerTables.Config.AddPBSServerMem: the object handed in is new, not one that is stored already; saving the configuration file is outside. Formats of addresses, names, fingerprints and key files are a predicate parameter.
- RestoreCache.Cache.LoadSnapshotTreeCache: the cached side information and its default, and the age of files, are left out.
- PinHistories.GuaranteeSurvives: asks for disks listed each at its own canonical drive path, no two with the same reliable identity, and for stored pins on distinct paths; a saved selection is not rewritten by the program, so references never change.
- RepeatedRuns.DueExactly: asks for an ID that no other job has, and for edits and declarations of other jobs only; what an edit of the job itself does is in MissedRuns.StepKeepsPending. A run whose record could not be saved leaves the job due.
- StreamRecords.RecordsRoundTrip: asks for at least one record, since the system reports an error instead of an empty list; names and fillers are limited to what fits a 32-bit record length.
- DiskPins.ResolvePinnedDevices: trimming and the canonical form of a drive path are function parameters; the list of disks is what the system reported.
- Windows handles, shadow copies, elevation, the tray, dialogs, the local API, tickets and the machine-restore tools: system calls and user interface.
