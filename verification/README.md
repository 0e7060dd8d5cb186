# PyUploadX verification model

PyUploadX is a multipart upload service with a Python SDK and a browser portal. This project models its
behaviour in Dafny and proves what the service and its clients promise about it. `dafny verify
dfyconfig.toml` checks all of it.

## How the model is built

**One world, request functions, runs.** `Server.dfy` holds the state (database tables, local storage, the
active-session gauge) and one function per HTTP request, sweep or worker batch. A request commits at its
end; an error or a failing commit rolls the database back but neither storage nor the gauge. Storage
faults and failing commits are parameters of the requests, so every theorem about runs covers them.
`Invariants.dfy`, `Protocol.dfy`, `Content.dfy`, `Interleaving.dfy` and `Lifecycle.dfy` prove statements about
every run of these requests; `Occurrences.dfy` holds concrete runs. `UploadDecisions.dfy` and
`FileDecisions.dfy` say of each request which answer comes when and what it leaves, `Tenants.dfy` that
tenants keep apart, and `DirectoryDecisions.dfy` does the same for directory jobs.

**The services as objects.** `Services.dfy`, `LocalStorage.dfy` and `DirectoryService.dfy` are the
source's classes with mutable tables, part files and counters and with the source's loops. Each method is
proved to answer and to change the whole state as its request function says; the short handlers that do
little more than their request function are not listed below. `Clients.dfy`, `Downloads.dfy` and
`DirectoryClient.dfy` with `DirectoryUpload.dfy` are the SDK's and the portal's loops, calling those objects.

**Components.** `Slicing.dfy` (part arithmetic, the double-precision quotient), `Decimal.dfy` (numerals and
part file names), `Ranges.dfy` (the Range parser against section 2.1 of RFC 7233), `ParallelDownload.dfy`
(workers interleaved on one destination buffer, joined at the end), `Paths.dfy` (both normalisers, with NFC as a parameter
about which only three facts are used), `Json.dfy` and `Manifest.dfy` (JSON text, NDJSON, the hashed text,
with SHA-256 as a parameter), `Directory.dfy`, `DirectoryRuns.dfy`, `DirectoryFaults.dfy`, `DirectoryPages.dfy`
and `DirectoryManifest.dfy` (directory jobs, runs of their requests, failing commits, the cursor, the served
manifest),
`Policy.dfy` (lifecycle adjudication), `Listing.dfy` (file listing order and pages). `Basics.dfy`,
`Sorting.dfy` and `Text.dfy` are shared vocabulary.

## What the proofs show that the documentation does not say

- A successful complete yields the original file exactly when a part file is stored for every part. Rows
  declared through commit_part, and rows that outlived their part files after a failed complete, pass the
  count test (`Content.CompletedEqualsFile`); `Occurrences.ShortObjectOccurs` is such an input.
- Section 14.5 of docs/docs_product-design.md counts a lifetime from completion; the code counts a multipart
  upload's from the creation of its session (`Lifecycle.ExpiryCountsFromCreation`), so a slow upload can be
  due for deletion as it completes (`Occurrences.ExpiredAtCompletionOccurs`).
- extend never moves an expiry by the seconds asked for (`Lifecycle.ExtendIgnoresSeconds`), and expires_at
  mode has no maximum (`Policy.NoCeilingOnExpiresAt`).
- A complete that is refused because its key belongs to another file has replaced that file's bytes by then
  (`Content.RefusedCompleteOverwrites`, `Occurrences.OverwriteOccurs`). The one-request upload does the same,
  or removes the object when its checksum is wrong (`Content.RefusedPutOverwrites`). A legal hold protects
  a file's row, not its bytes. Writing or completing an object destroys the object whose key is that
  key followed by `.tmp` (`Content.StepEffect`).
- The manifest endpoint serves at most 1000 entries, so a larger job cannot be copied through it
  (`DirectoryManifest.ManifestTruncates`).
- A directory prefix is checked but stored as it came: an entry's key differs from the key of its uploaded
  file when the prefix is not in normal form (`Paths.EntryKeyIsUploadKey`, `Paths.LoosePrefixOccurs`).
- The gauge is not rolled back, so it drifts by exactly one for each create, complete or abort, and by the
  batch for each sweep, whose commit fails (`Protocol.GaugeConservation`); the gauge of directory jobs drifts
  in the same way (`DirectoryFaults.FailingCommits`).
- Extending a lifetime is not stopped by a legal hold (`FileDecisions.ExtendDecided`).
- Tenants are kept apart in the tables (`Tenants.TenantIsolation`); buckets and object keys are one name space.
- A directory upload can answer Ok and have lost a file: one named like a later file with `.tmp` added
  (`DirectoryUpload.DirectoryStored`). A walk that lists each directory in name order is safe
  (`DirectoryUpload.SortedWalkSafe`).
- A file sent in one request after create chose proxy mode has its lifecycle adjudicated twice, and can be
  refused the second time (`Clients.PutDecides`).
- A served or submitted NDJSON manifest is readable exactly when no string holds U+0085, U+2028 or U+2029
  (`Manifest.NdjsonRoundTrip`).
- A malformed Range header is answered with 416; an empty file cannot be downloaded in parallel, and a file
  whose object is shorter than its row is padded with zeros (`Downloads.StreamParallel`).
- The transition inside complete_manifest, and initiate_entry's move out of `created`, can never be the
  thing that happens: a job that owns an entry has left `created`.
- A directory job completes only from `uploading`; `ready` and `paused` pass the first check and are then
  refused by the transition table. A second cancel is refused (`DirectoryRuns.FinishingRules`). Entry
  results may still be changed after a job has completed (`DirectoryRuns.CompletedJobStillMarked`).
- mark_entry_result and complete recompute total_bytes over all entries, directories included, while
  add_entries counts files only; the two agree exactly when the directories' sizes add up to 0
  (`DirectoryRuns.BytesAfterMark`).

## Model

Source paths are relative to the repository root.

| member | source | states |
|---|---|---|
| `Content.ContentPreserved` | app/services/upload_service.py:395-514 | Create an upload for `f`, let any requests by anyone follow with any faults, parts of `f` sent in any order and any number of times: if every part its owner only declared, or whose send broke off, was sent again, each successful complete leaves the object equal to `f` and a file row with its size and hash. |
| `Content.CompletedEqualsFile` | app/services/upload_service.py:418-463 | When only slices of `f` are stored, the completed object equals `f` if and only if a part file is stored for every part; it is never longer than `f`. |
| `Content.AssembleSlices` | app/storage/local.py:267-305 | Increasing part numbers up to k joined: exactly the first k parts' bytes when none is left out, strictly fewer when one is (non-empty file). |
| `Content.BackedCompletes` | app/services/upload_service.py:418-497 | If every committed row is backed by a part file, a successful complete finds all parts stored and makes object, size, key and hash of `f`. |
| `Content.RunBacked` | app/services/upload_service.py:275-332 | Over any run that sends an upload nothing but slices, every committed row has its part file except for the parts in doubt, which the owner can tell from the requests alone. |
| `Content.RunLeavesObject` | app/storage/local.py:76-118 | Over any run that never touches a file's key, its object, size, owner and status stay; a repeated complete, a refused delete and a held or failing worker item touch nothing. |
| `Content.StepEffect` | app/storage/local.py:267-305 | For every request, fault and key: what lies under the key afterwards, whether the same as before, new bytes or nothing, temporary names included. |
| `Content.SurvivesExactly` | app/storage/local.py:157-159 | An object survives a request exactly when the request does not touch it or writes the bytes that are there already. |
| `Content.CompleteAgainTouchesNothing` | app/services/upload_service.py:411-416 | Completing a completed upload again touches no object. |
| `Content.RefusedCompleteOverwrites` | app/services/upload_service.py:450-514 | A complete whose key belongs to another file of the tenant leaves the database alone; the other file's bytes become this upload's assembly exactly when the answer is the key conflict, which is exactly when the checks pass, storage works and something is stored. |
| `Content.RefusedPutOverwrites` | app/services/file_service.py:67-180 | A one-request upload to the key of another file of the tenant leaves the database alone, a legal hold included or not; that file's object stays on a storage error, is gone after a wrong checksum, and otherwise becomes the new body with the key conflict as the answer. |
| `Occurrences.DeclaredPartGivesShortObject` | app/services/upload_service.py:334-361 | From the empty server: any accepted two-part upload whose second part is only declared completes with Ok, the row claims the full size, the object is the first part alone. |
| `Occurrences.ShortObjectOccurs` | app/services/upload_service.py:418-463 | A concrete server and two-byte upload that run so: Ok, a row of size 2, an object of one byte. |
| `Occurrences.RacingUploadsOverwrite` | app/services/upload_service.py:450-514 | From the empty server: two one-part uploads to one key, both sent before either completes; the first completes with its bytes, the second is refused, the database keeps the first file and its object has become the second's bytes. |
| `Occurrences.OverwriteOccurs` | app/services/upload_service.py:450-514 | A concrete server and two one-byte uploads that run so: the row's hash is that of one byte, the object is the other. |
| `Occurrences.ExpiredAtCompletionOccurs` | app/services/upload_service.py:466-477 | On a concrete server, for every ttl and every completion instant: the file expires ttl seconds after the session's creation, and is due for deletion as it completes exactly when that has passed. |
| `Interleaving.RowsAreAnswers` | app/services/upload_service.py:275-361 | Rows never disappear: over any run of anyone's requests an upload's committed parts grow by exactly the parts that were answered Ok. |
| `Interleaving.MissingAreUnanswered` | app/services/upload_service.py:418-428 | In every run from the empty server complete answers MISSING_PARTS exactly on a live upload of the caller of which some part was never answered Ok, and names exactly those parts. |
| `Interleaving.NoMissingOnceAnswered` | app/services/upload_service.py:418-428 | Once every part was answered Ok, no complete after any further run reports missing parts. |
| `Interleaving.UploadAmongOthers` | app/services/upload_service.py:395-514 | A client's create, sends and complete with any requests of anyone else between them: the answer is decided by what the others did to its session and its key (completed, aborted, expired, key taken, or success), and a success makes object, size and hash of `f`. |
| `UploadDecisions.CreateRefusals` | app/services/upload_service.py:97-172 | Every answer of create and exactly when it comes: each refusal is the first check that fails, in the order of the service, with the path's or the lifecycle's own reason. |
| `UploadDecisions.CreateMakes` | app/services/upload_service.py:174-215 | Every field of an accepted session: owner, key, sizes, part count, mode by threshold, lifecycle adjudicated now, expiry; one live session more and nothing else changed. |
| `UploadDecisions.SendRefusals` | app/services/upload_service.py:284-293 | Every answer of sending a part and exactly when it comes; INVALID_PART_SIZE exactly when the declared size exceeds the part size, or is below the minimum and the part is not the last. |
| `UploadDecisions.SendLeaves` | app/services/upload_service.py:295-332 | What sending a part leaves: its row with the received size and hash and its file on success, no file after a storage failure, the old tables after a failing commit, nothing at all after a refusal; every other upload and all files stay. |
| `UploadDecisions.DeclareDecided` | app/services/upload_service.py:334-361 | Declaring a part has the same refusals, and otherwise leaves a row with the size and hash the client gave and nothing else. |
| `UploadDecisions.ResumeDecided` | app/services/upload_service.py:363-393 | Who may resume, and that the list is exactly the parts with neither a committed row nor a part file, ascending. |
| `UploadDecisions.PartsStayInBounds` | app/services/upload_service.py:288-293 | In every run from the empty server no stored part file exceeds part_size, and no completed object exceeds total_parts * part_size. |
| `UploadDecisions.CompleteAnswers` | app/services/upload_service.py:395-514 | Every answer of complete and exactly the state in which it comes, with storage faults and failing commits. |
| `UploadDecisions.CompleteLeaves` | app/services/upload_service.py:395-514 | What complete leaves: on success the session completed with one new file row and one live session less; otherwise the old tables; the upload's part files go exactly when storage was reached; every other upload stays. |
| `UploadDecisions.CompletedRowExact` | app/services/upload_service.py:466-507 | Every column of the new file: with lifecycles on, mode, action, ttl and expiry of the session's lifecycle and the schedule they imply; otherwise permanent and unscheduled; source, status, hold and completion time. |
| `UploadDecisions.AbortAnswers` | app/services/upload_service.py:532-548 | Every answer of abort and exactly when it comes; outside an unfinished upload of the caller nothing changes. |
| `UploadDecisions.AbortLeaves` | app/services/upload_service.py:548-564 | Aborting an unfinished upload removes its part files, lowers the gauge by one and marks it aborted once it commits; everything else stays. |
| `UploadDecisions.AbortedForGood` | app/services/upload_service.py:590-596 | After an abort and any further run, sending, declaring and completing answer UPLOAD_ABORTED and change nothing. |
| `UploadDecisions.SweepDecided` | app/services/cleanup_service.py:27-48 | A sweep expires only overdue sessions, all of them unless the batch was full, and touches no part file, file or other session. |
| `FileDecisions.PutAnswers` | app/services/file_service.py:85-180 | Every answer of a one-request upload and exactly when it comes, with faults, wrong checksums and taken keys. |
| `FileDecisions.PutRowExact` | app/services/file_service.py:126-163 | Every column of the new file: the lifecycle adjudicated on arrival and the schedule it implies, declared size, hash of the body; the object is the body. |
| `FileDecisions.DeleteDecided` | app/services/file_service.py:269-299 | Every answer of delete; the object goes exactly when storage took the request, the row is marked exactly when it also committed. |
| `FileDecisions.ExtendDecided` | app/services/lifecycle_service.py:113-149 | Every answer of extend, which a legal hold does not stop; the columns are those adjudicated for the file's own lifecycle. |
| `FileDecisions.WorkerPicks` | app/worker/lifecycle.py:30-44 | The worker picks live, scheduled, due files only, all of them if they fit the batch and the earliest otherwise. |
| `FileDecisions.WorkerRecords` | app/worker/lifecycle.py:45-91 | The events and messages of a batch, in order: one of each per action carried out, a blocked event per held file, none per failed deletion. |
| `FileDecisions.DownloadDecided` | app/services/file_service.py:182-213 | Every answer of a download in terms of the row, the header and the object, and the bytes it serves. |
| `Tenants.TenantIsolation` | app/db/repositories/upload_repository.py:13-26 | Over any run of other tenants' requests, with any faults, a tenant keeps exactly its uploads, part rows, part files and file rows, unchanged. |
| `Content.UploadDownloadRoundTrip` | sdk/pyuploadx/client.py:62-137 | Create, any faithful run, a successful complete, any run that does not touch the key, a parallel download of the file as its row announces it under any chunking and interleaving: the downloaded file is `f`. |
| `Invariants.StepKeepsInv` | app/db/models.py:142-146 | Every request, with a storage fault, a failing commit or neither, keeps the database and part-file invariant: completed sessions and file rows match one to one, keys are unique, part rows sit at (n-1)*part_size, terminal sessions own no part files when completed or aborted. |
| `Invariants.RunKeepsInv` | app/api/dependencies.py:74-76 | Every state of every run satisfies that invariant. |
| `Invariants.CompleteClears` | app/storage/local.py:298-299 | Once its checks passed, complete removes the upload's part files whether it then succeeds or fails, and no others. |
| `Protocol.StatusSafety` | app/lifecycle/state_machine.py:8-26 | Over any run a session's committed status moves along paths of UPLOAD_TRANSITIONS, completing and aborting are never visible, completed, aborted and expired are final. |
| `Protocol.OneFilePerUpload` | app/services/upload_service.py:450-514 | In every reachable state a completed session owns exactly one file row and any other session none. |
| `Protocol.ExactlyOnce` | app/services/upload_service.py:401-416 | After a successful complete and any further run, completing again returns the same file, leaves the whole state as it is, and exactly one file row names the upload. |
| `Protocol.CountTestExact` | app/services/upload_service.py:418-428 | complete's count test fails exactly when some part 1..total_parts has no committed row, and the list it reports is exactly those parts, sorted and non-empty. |
| `Protocol.ResumeSound` | app/services/upload_service.py:363-393 | resume's missing list is contained in complete's, and equal to it exactly when every stored part has its committed row. |
| `Protocol.DialectIndependence` | app/db/repositories/part_repository.py:14-68 | The PostgreSQL and SQLite part upserts take every run of requests to the same state. |
| `Protocol.UpsertDialects` | app/db/repositories/part_repository.py:14-68 | For every part row the service ever writes the two upsert statements leave the same rows, although one keeps the stored offset and the other overwrites it. |
| `Protocol.GaugeConservation` | app/services/cleanup_service.py:27-48 | The active-session gauge equals the number of live sessions plus the drift of commits that failed after the gauge moved; without such commits it is exact. |
| `Services.UploadService.ProxyUploadPart` | app/services/upload_service.py:275-332 | Answer and whole new state of a part sent through the server, in every error and fault case. |
| `Services.UploadService.Resume` | app/services/upload_service.py:363-393 | The reported missing parts are exactly those with neither a committed row nor a part file; nothing changes. |
| `Services.UploadService.Complete` | app/services/upload_service.py:395-530 | Answer and whole new state of complete: idempotent answer, missing parts, assembly, insert, commit failure. |
| `Services.CleanupService.ExpireUploadSessions` | app/services/cleanup_service.py:27-48 | The selected due sessions, and no others, become expired, and the gauge falls once for each. |
| `Services.FileService.ProxyUpload` | app/services/file_service.py:67-180 | Answer and whole new state of a single-request upload, including checksum mismatch, key conflict and faults. |
| `Services.FileService.Download` | app/services/file_service.py:195-213 | The answer in every case: 404 for a missing or deleted file, 416 exactly for a refused range of the row's size, 404 for a missing object, otherwise non-empty chunks that join to exactly the requested stretch. |
| `Services.LifecycleWorker.ProcessBatch` | app/worker/lifecycle.py:24-104 | The batch loop handles each selected file once and returns the number processed; a failing commit keeps the storage effects only. |
| `LocalStorage.LocalStorageAdapter.UploadPart` | app/storage/local.py:208-245 | The part file holds exactly the body when its size is the declared one; otherwise, and on an I/O error, it does not exist. |
| `LocalStorage.LocalStorageAdapter.ListParts` | app/storage/local.py:247-265 | Each stored part exactly once, with its size, ascending by file name; ascending by part number while all numbers are below 10^8. |
| `LocalStorage.LocalStorageAdapter.CompleteMultipart` | app/storage/local.py:267-305 | The object is the given parts joined in order with its hash, or the first missing part stops it; the part directory is gone in any case. |
| `LocalStorage.LocalStorageAdapter.AbortMultipart` | app/storage/local.py:307-313 | The upload's part files are gone, everything else is as before. |
| `LocalStorage.LocalStorageAdapter.PutObject` | app/storage/local.py:76-118 | Object and hash of a write through the temporary file; on a checksum mismatch or an I/O error what is left behind. |
| `LocalStorage.LocalStorageAdapter.GetObject` | app/storage/local.py:120-155 | Non-empty chunks of at most 1 MiB that join to exactly the requested stretch. |
| `LocalStorage.ReadChunks` | app/storage/local.py:135-147 | The chunk loop: for every start and optional length the chunks join to the stretch that exists. |
| `Decimal.PartNameRoundTrip` | app/storage/local.py:72-74 | The number read from a part file's name is the number it was named after, for every number. |
| `Decimal.PartNameOrder` | app/storage/local.py:257-265 | Below 10^8 the zero-padded names sort exactly as the part numbers do. |
| `Decimal.PartNameOrderBreaks` | app/storage/local.py:72-74 | At every power of ten from 10^8 on the string order of the names is reversed. |
| `Slicing.SlicesTile` | sdk/pyuploadx/multipart.py:50-60 | For every file and part size the slices, in order, are the file, the empty file included. |
| `Slicing.SliceSize` | sdk/pyuploadx/multipart.py:51-52 | Every part but the last is full; a slice is empty only for the empty file. |
| `Slicing.SliceOwner` | sdk/pyuploadx/multipart.py:51-52 | Byte i belongs to part n exactly when n == i / part_size + 1. |
| `Slicing.DoubleCeilExact` | app/services/upload_service.py:127-140 | ceil of the nearest double of total_size / part_size is the exact ceiling for part sizes up to 512 MiB and counts below 2^24, and larger counts are never taken for smaller ones. |
| `Clients.PartSha256` | sdk/pyuploadx/multipart.py:16-27 | The read loop hashes exactly the part's slice of the file. |
| `Clients.SliceSent` | app/services/upload_service.py:287-293 | Every slice of the file passes the server's checks: it is refused only if the session is finished, and otherwise exactly its row and part file are added. |
| `Clients.UploadAllParts` | sdk/pyuploadx/multipart.py:30-86 | For any arrival order of the pending parts, repeats included: all are accepted exactly when the session is live, the new world is what those sends make of the old, and a refusal is the session's and changes nothing. |
| `Clients.SendAllSent` | sdk/pyuploadx/multipart.py:50-86 | A live upload that is sent any parts of the file gains rows and part files for exactly those parts, and nothing else about it changes. |
| `Clients.UploadLargeFile` | sdk/pyuploadx/client.py:246-309 | Multipart or proxied, create and the last request at instants of their own: the outcome is create's refusal, else (proxied) what the lifecycle comes to on arrival, else a taken key, else success; the new world is exactly a create, every part in arrival order and a complete (or a create and one request); on success the returned file's object is the local file. |
| `Clients.StartQueuedFile` | portal/src/upload/fileUpload.ts:81-147 | First upload of a queued file, create and complete at instants of their own: the outcome is create's refusal, else a taken key, else success, so MISSING_PARTS cannot be reported; the new world is a create, every part sent exactly once in order and a complete; success means the stored object is the blob. |
| `Clients.FullComplete` | app/services/upload_service.py:395-514 | A live upload with every part committed and stored completes unless its key is already taken. |
| `Clients.PutDecides` | app/services/file_service.py:67-180 | After create accepted a request, the one-request upload of the same file that arrives later passes the same checks: only its lifecycle, adjudicated again, or a taken key can refuse it. |
| `Clients.ResumeQueuedFile` | portal/src/upload/fileUpload.ts:106-147 | The server's refusal, or: every part reported missing is sent exactly once in order, the new world is those sends and one complete, the rows grow by exactly the parts sent, and the answer is determined; MISSING_PARTS names only parts stored without a row that the portal had ticked, so it cannot come when every stored part was committed; a backed upload that completes holds the blob. |
| `Clients.SendMissing` | portal/src/upload/fileUpload.ts:113-138 | The send loop: a live upload accepts the whole list and the new world is those sends in order; a finished one refuses the first and nothing changes. |
| `Ranges.ParserMeetsRfc` | app/core/ranges.py:20-51 | For every conforming header (section 2.1 of RFC 7233) and size the returned range is exactly the non-empty set of selected positions, and 416 is answered exactly when nothing is selected. |
| `Ranges.RangeInBounds` | app/core/ranges.py:20-51 | Whatever the header, a returned range is non-empty and inside [0, size). |
| `Ranges.PrintParse` | sdk/pyuploadx/client.py:102-108 | The header a worker prints parses back to its range for all 0 <= start <= end < size. |
| `Ranges.ContentRangeRoundTrip` | sdk/pyuploadx/client.py:57-59 | The total written into a Content-Range header is read back. |
| `ParallelDownload.SplitRanges` | sdk/pyuploadx/client.py:84-100 | For every total >= 1 and concurrency >= 1 the ranges partition [0, total) in order, one per worker. |
| `ParallelDownload.PartitionOwner` | sdk/pyuploadx/client.py:84-100 | Every byte position lies in exactly one range. |
| `ParallelDownload.ActionKeepsInv` | sdk/pyuploadx/client.py:102-126 | Every chunk write and every counter update of every worker keeps: own bytes right, other workers' bytes untouched, counter the sum of counted chunks. |
| `ParallelDownload.CounterRises` | sdk/pyuploadx/client.py:113-121 | Counting a non-empty chunk reports more than was ever reported before. |
| `ParallelDownload.ParallelDownloadCorrect` | sdk/pyuploadx/client.py:102-137 | Every schedule has bounded length, and when nothing is left to do the destination is the object fitted to the announced size, equal to it exactly when the sizes agree, and exactly its bytes have been reported, for every chunking and interleaving. |
| `ParallelDownload.RunThreads` | sdk/pyuploadx/client.py:128-137 | Whatever order the workers run in, after the join the destination array is the object fitted to the announced size and every byte is counted. |
| `Downloads.StreamParallel` | sdk/pyuploadx/client.py:62-137 | Probe, split, one ranged request per worker to the server's download endpoint, join: it succeeds exactly on a live file of positive size whose object exists, and then the destination is the object fitted to the size of its row. |
| `Paths.NormalizeOnServer` | app/directory_upload/paths.py:12-48 | The server's segment loop returns the normalised path or the first error, as the specification function. |
| `Paths.NormalizeInSdk` | sdk/pyuploadx/paths.py:10-31 | The SDK's segment loop, likewise. |
| `Paths.ServerFixedPoint` | app/directory_upload/paths.py:12-48 | Normalising an accepted path again returns it unchanged, except that a path whose second character is ':' is refused as a drive path. |
| `Paths.SdkFixedPoint` | sdk/pyuploadx/paths.py:10-31 | The same for the SDK's function. |
| `Paths.ServerSdkAgree` | sdk/pyuploadx/paths.py:10-31 | The server accepts exactly the paths the SDK accepts that hold no control character and no unsafe segment, and then both return the same path. |
| `Paths.AcceptedIsSafe` | app/directory_upload/paths.py:19-48 | An accepted path is relative, non-empty, within the limits, and has no blank, dot, parent or unsafe segment and no backslash. |
| `Paths.ServerAcceptsExactly` | app/directory_upload/paths.py:12-48 | Exactly which paths the server accepts, and that the result is the named segments joined. |
| `Paths.SdkAcceptsExactly` | sdk/pyuploadx/paths.py:10-31 | The same for the SDK. |
| `Paths.JoinPrefixInjective` | app/directory_upload/paths.py:51-57 | Under one prefix, different normalised paths never get the same object key. |
| `Paths.SdkOutputKept` | app/services/directory_upload_service.py:210-221 | A path the SDK produced, if the server accepts it under any limits, is stored unchanged. |
| `Paths.EntryKeyIsUploadKey` | app/services/directory_upload_service.py:113-115 | The key a directory entry is given is the key its file is uploaded to exactly when the stripped prefix is its own normal form. |
| `Paths.LoosePrefixOccurs` | app/services/directory_upload_service.py:113-115 | The prefix a//b is accepted; an entry c under it gets the key a//b/c and its file the key a/b/c. |
| `Json.LiteralRoundTrip` | app/directory_upload/manifest.py:44 | Every string is read back from its JSON literal (section 7 of RFC 8259 escapes, other characters raw). |
| `Json.ObjectRoundTrip` | app/directory_upload/manifest.py:54 | A printed flat object reads back as the dictionary of its members. |
| `Json.ObjectCut` | app/directory_upload/manifest.py:50-54 | An object cut inside a text value is refused. |
| `Manifest.ManifestHash` | app/directory_upload/manifest.py:12-29 | The line loop returns the hash of the canonical text; the SDK's function (sdk/pyuploadx/manifest.py) is the same code. |
| `Manifest.HashInputFaithful` | sdk/pyuploadx/manifest.py:10-24 | For entries with distinct paths two lists have the same hashed text if and only if they hold the same entries, in whatever order. |
| `Manifest.HashedInPathOrder` | app/directory_upload/manifest.py:12-29 | For distinct paths the hashed text is the entries' lines in ascending path order, whatever order they come in. |
| `Manifest.HashLineText` | app/directory_upload/manifest.py:16-26 | The text of one line: keys in alphabetical order, Python's default separators. |
| `Manifest.RepeatedPathShowsOrder` | app/directory_upload/manifest.py:15 | With a repeated path the row order shows in the hashed text. |
| `Manifest.SerializeManifest` | app/directory_upload/manifest.py:32-45 | The NDJSON printer: default fields, optional fields dropped when null, one line per entry. |
| `Manifest.ParseManifest` | app/directory_upload/manifest.py:48-55 | The NDJSON reader: split, strip, skip blank lines, fail on the first malformed line. |
| `Manifest.NdjsonRoundTrip` | app/directory_upload/manifest.py:32-55 | Parsing a serialised manifest gives the entries back with defaults filled in if no printed string holds U+0085, U+2028 or U+2029, and fails otherwise. |
| `DirectoryManifest.ManifestReimports` | app/api/v1/directory_uploads.py:55-67 | The served manifest of a job streamed into a fresh job with the same prefix recreates all its rows, in path order, if and only if it has at most 1000 of them, no more than a request may carry, and no path or fingerprint holds a raw line separator. |
| `DirectoryManifest.ManifestTruncates` | app/api/v1/directory_uploads.py:118-139 | A job with more than 1000 printable entries is served without the rest: the copy holds exactly the first 1000 in path order. |
| `DirectoryManifest.LongManifestLosesAnEntry` | app/services/directory_upload_service.py:320-325 | A run from the empty tables to a job with 1001 entries of which the copy gets 1000. |
| `DirectoryService.DirectoryUploadService.AddEntries` | app/services/directory_upload_service.py:168-252 | Answer and whole new tables of add_entries: all entries or none, rows appended in order, counters moved. |
| `DirectoryService.AdmitAll` | app/services/directory_upload_service.py:202-244 | The entry loop: every entry checked against the paths before it, the first error wins. |
| `DirectoryService.DirectoryUploadService.CompleteManifest` | app/services/directory_upload_service.py:254-298 | Answer and whole new tables of complete_manifest for every row order. |
| `DirectoryService.Tally` | app/services/directory_upload_service.py:202-244 | The request's counters are the numbers of files and directories and the bytes of the files. |
| `Directory.StepKeepsInv` | app/services/directory_upload_service.py:160-434 | Every directory request keeps: true counts, no entries while created, right hash, distinct paths with keys made from them, gauge equal to the unfinished jobs. |
| `Directory.RunKeepsInv` | app/services/directory_upload_service.py:160-434 | Every state of every run satisfies that invariant. |
| `Directory.OrderIrrelevant` | app/services/directory_upload_service.py:271-287 | The order in which the database returns the rows does not show in the manifest hash. |
| `DirectoryRuns.FrozenManifest` | app/services/directory_upload_service.py:287-296 | Once set in any run, a job's manifest hash and its entries never change, and it is the hash of its file entries in every later state. |
| `DirectoryRuns.JobStatusSafety` | app/directory_upload/state_machine.py:8-39 | Only six statuses are ever committed, every change is a path of the transition table, completed and cancelled are final. |
| `DirectoryRuns.TrueCountsAlways` | app/directory_upload/aggregation.py:11-38 | In every reachable state entry, file and directory totals are the true counts, a created job is empty, and the gauge counts the unfinished jobs; total_bytes is the files' sum while directories have size 0. |
| `DirectoryRuns.KeysDistinct` | app/db/models.py:273-282 | No two entries of a job share a normalised path or an object key, so neither unique constraint can fire. |
| `DirectoryRuns.ManifestConflictOnlyWhenClosed` | app/services/directory_upload_service.py:268-296 | complete_manifest answers with a state conflict exactly when the job is no longer open; its transition never fails. |
| `DirectoryDecisions.AllAdmitted` | app/services/directory_upload_service.py:202-244 | A request's entries are admitted exactly when each can be read and their normalised paths are new and differ; each row says what its entry says. |
| `DirectoryDecisions.AddDecided` | app/services/directory_upload_service.py:168-252 | Every answer of add_entries; a success appends one pending row per entry and leaves the rows before as they were. |
| `DirectoryDecisions.ManifestDecided` | app/services/directory_upload_service.py:268-298 | Every answer of complete_manifest for every row order: an expected hash and declared counts are accepted exactly when they are those of the job's entries; a success freezes the hash and makes the job ready. |
| `DirectoryDecisions.MarkDecided` | app/services/directory_upload_service.py:352-374 | Every answer of mark_entry_result; the row takes the result and the job's counters become the true numbers of its rows. |
| `DirectoryDecisions.CancelDecided` | app/services/directory_upload_service.py:416-434 | Every answer of cancel; a success only marks the job and lowers the gauge. |
| `DirectoryDecisions.CancelledForGood` | app/services/directory_upload_service.py:180-183 | After a cancel and any further run, adding entries, completing the manifest, retrying, completing and cancelling answer with a conflict and change nothing. |
| `DirectoryRuns.FinishingRules` | app/services/directory_upload_service.py:389-434 | complete succeeds exactly on a completed job or an uploading one without failed entries, cancel exactly on an unfinished job. |
| `DirectoryRuns.CompletedJobStillMarked` | app/services/directory_upload_service.py:352-374 | Marking an entry failed succeeds on a completed job, which stays completed and then shows failed files. |
| `DirectoryRuns.BytesAfterMark` | app/directory_upload/aggregation.py:19-38 | After a marked entry total_bytes is the sum over the files exactly when the directories' sizes add up to 0. |
| `DirectoryRuns.ManifestAgreement` | sdk/pyuploadx/client.py:385-411 | In any run, if the successful add_entries calls of a still open job carry a non-empty SDK walk in any batches, complete_manifest accepts the client's hash and counts for every row order. |
| `DirectoryRuns.AcceptedHashMeansSameFiles` | app/services/directory_upload_service.py:287-289 | With a collision-free hash, an accepted expected hash means the job holds exactly the files the client hashed. |
| `DirectoryPages.PageMeans` | app/services/directory_upload_service.py:311-332 | What list_entries answers for any cursor and limit: rows past the cursor in strictly ascending path order, at most the page size, none skipped, and a next cursor exactly when rows remain. |
| `DirectoryPages.PageAt` | app/services/directory_upload_service.py:320-332 | At a cursor the walk stands on, the page is the next run of entries in path order and its next cursor stands after them, for every limit. |
| `DirectoryClient.FollowCursor` | sdk/pyuploadx/client.py:416-432 | Following next_cursor until it is absent ends, for every limit, having visited every entry exactly once in ascending path order, and yields the id of each raw path. |
| `DirectoryClient.WalkExact` | app/services/directory_upload_service.py:311-332 | What the walk visits is exactly the job's rows under their ids, strictly ascending by path. |
| `DirectoryClient.SubmitEntries` | sdk/pyuploadx/client.py:385-391 | State and answer are those of add_entries for consecutive batches of 500, up to the first refused one; without a refusal the job holds the walk. |
| `DirectoryClient.BatchesDoNotMatter` | sdk/pyuploadx/client.py:386-391 | An open job takes a walk in batches exactly when one batch is within the request limit and the walk checked in one go is admitted, and it then gains the rows of the whole walk. |
| `DirectoryUpload.ReportResults` | sdk/pyuploadx/client.py:434-463 | Each file is sent in one request, in walk order, and its own outcome reported; after the loop exactly the files are marked and the directories are still pending. |
| `DirectoryUpload.UploadDirectory` | sdk/pyuploadx/client.py:339-468 | The refusal of create, of the first refused batch or of an empty manifest, in the state that leaves and with no file sent; otherwise, for every order in which the database lists the rows, every file is sent once in walk order and the job completes exactly when the server takes all of them, holding the walk, its hash and its counts, and else complete reports exactly the number of refused files. |
| `DirectoryUpload.DirectoryStored` | sdk/pyuploadx/client.py:434-463 | When the server took every file, each has its row, its key (normal prefix and path), size and hash, and the lifecycle asked for as adjudicated on arrival; and the key holds the file's bytes, unless a file sent later has the same path without a final .tmp, in which case it holds nothing. |
| `DirectoryUpload.SortedWalkSafe` | sdk/pyuploadx/directory.py:38-77 | In a walk whose directories list their files in name order no file is lost that way. |
| `DirectoryFaults.FailingCommits` | app/api/v1/directory_uploads.py:20-213 | Over any run with failing flushes and commits, jobs and entries are those of the run of the committed requests alone, and the gauge of active jobs is the number of unfinished jobs plus the drift of the failed commits, zero when none failed. |
| `Policy.AcceptedObeysPolicy` | app/lifecycle/policy.py:16-83 | An accepted lifecycle has an allowed mode and action, is permanent only where permitted, keeps the minimum, and counted lifetimes end exactly ttl seconds after the base and within the maximum. |
| `Policy.NoCeilingOnExpiresAt` | app/lifecycle/policy.py:61-73 | expires_at mode accepts exactly the instants from the minimum on, with no maximum. |
| `Policy.OverrideOff` | app/lifecycle/policy.py:29-31 | With client overrides switched off the outcome does not depend on what the client asks for. |
| `Policy.AcceptedAsAsked` | app/lifecycle/policy.py:33-83 | Whose values an accepted lifecycle holds, field by field: the client's where it may override and gave something, the administrator's default otherwise. |
| `Policy.RefusedExactly` | app/lifecycle/policy.py:38-82 | Each refusal comes exactly when its check is the first to fail. |
| `Lifecycle.ScheduleHolds` | app/services/lifecycle_service.py:48-55 | Through every writer and every run, whatever actions are configured, next_action_at is the expiry when the file expires and has an action and absent otherwise; the one exception is an action besides delete, notify and none, whose schedule may have been cleared by the worker. |
| `Lifecycle.BatchConservation` | app/worker/lifecycle.py:32-104 | Per batch selected = processed + blocked + failed, events grow by processed + blocked, outbox rows by processed. |
| `Lifecycle.WorkerEffect` | app/worker/lifecycle.py:45-100 | A batch leaves held, undue and unselected files as they are; a due deletion deletes the row or leaves it deleting when storage fails; a due notification expires it; a due unknown action loses its schedule and nothing else. |
| `Lifecycle.HeldFileSurvives` | app/services/lifecycle_service.py:183-206 | Over any run, until its hold is released a held file keeps its status and lifecycle status. |
| `Lifecycle.ExpiryCountsFromCreation` | app/services/upload_service.py:466-477 | A counted lifetime of a multipart upload ends ttl after the session's creation; that is ttl after completion exactly when both happened at the same instant. |
| `Lifecycle.ExtendIgnoresSeconds` | app/services/lifecycle_service.py:113-149 | How many seconds are asked for never changes the outcome of extend. |
| `Listing.OrderingIsStrictTotal` | app/db/repositories/file_repository.py:101-112 | For every field, direction and database the composed ordering is a strict total order on rows with distinct ids. |
| `Listing.ListingCanonical` | app/db/repositories/file_repository.py:101-114 | The listing does not depend on the order in which the table is scanned. |
| `Listing.ListingExact` | app/db/repositories/file_repository.py:89-114 | The listing holds exactly the matching rows, each once, strictly ascending. |
| `Listing.ListingSelects` | app/db/repositories/file_repository.py:89-95 | A row is listed exactly when it is the tenant's and passes the bucket, prefix and status filters. |
| `Listing.ListingSorted` | app/db/repositories/file_repository.py:101-112 | What the order is, field by field and for both directions and databases, nulls and ties included. |
| `Listing.PermanentFilesLast` | app/db/repositories/file_repository.py:28-30 | Sorted by expires_at in either direction, files without expiry come after all others. |
| `Listing.PagesTile` | app/db/repositories/file_repository.py:112-114 | Consecutive offset pages of any sizes, each from its own table scan, concatenate to the stretch of the listing they cover. |
| `Listing.PagesComplete` | app/db/repositories/file_repository.py:82-114 | Once the page sizes reach the reported total the pages are the whole filtered listing, no row repeated or skipped. |

## Left out

- S3 storage, presigned URLs and the permanent links: foreign services and cryptography.
- FastAPI routing, SQLAlchemy, Redis, logging, metrics other than the two active gauges, configuration loading, webhook delivery.
- Requests that change a file while it is being downloaded, and network failures of the clients: a download reads one state, and every request is answered.
- Portal components, ignore rules, directory walking on disk, symlinks, thread pools, retry sleeps, the SDK's local state files.
- Interleavings finer than one request: requests are atomic steps. Only the workers of a parallel download interleave below that.
- Settings changed while requests run, and clocks that differ within one request: each request reads one instant and one configuration.
- Tenancy beyond owner checks, idempotency records, audit columns such as last_activity, updated_at, metadata and version.
- PART_ETAG_MISMATCH: the local listing reports an empty etag, so that branch cannot be reached with local storage.
- cleanup_local_multipart_dirs: nothing calls it.
- File-system limits: a key that is both a file and a directory, path joining below the storage root, disk space.
- Values wider than the database's 64-bit columns and strings longer than its columns.
- Unicode digits in `int(...)`, surrogate escapes, nested JSON values and floating-point JSON numbers: the JSON reader refuses them where Python reads them.
- Collation: strings compare by code point, as SQLite and the C locale do.
- The lifecycle document of a directory job, and its request to change it: it is only stored there, `Policy.dfy` covers how it is computed.
- Listing.ListingExact: does not model how the database matches a LIKE pattern against an object key; the match is a parameter.
- Content.ContentPreserved: leaves out runs that end with a part in doubt, because such a part may have no file; `Content.CompletedEqualsFile` gives the exact condition on the state.
- Paths.EntryKeyIsUploadKey: uses one more fact about NFC, that it keeps the empty string.
- Clients.UploadLargeFile: no other request runs between its steps; with others between them, `Interleaving.UploadAmongOthers` says how the upload ends.
- Clients.StartQueuedFile: no other request runs between its steps; `Interleaving.UploadAmongOthers` is the statement with others between them.
- Clients.ResumeQueuedFile: no other request runs between its steps; `Interleaving.MissingAreUnanswered` and `Interleaving.NoMissingOnceAnswered` hold with others between them.
- Clients.UploadAllParts: no other request runs between the sends; `Interleaving.RowsAreAnswers` says which rows there are with others between them.
- DirectoryUpload.UploadDirectory: no other request runs between its steps, and its file uploads meet no storage faults; a fault is one more refused file.
- DirectoryFaults.FailingCommits: the object of module DirectoryService commits every request; the faults are stated on the request functions.
- The session that stays behind when the SDK falls back to one proxied request is not followed further than its creation.
