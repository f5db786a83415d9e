# Verification of the router's hard core

This project models the parts of the router whose correctness is not visible in
any one function, and proves what they promise. It is checked with Dafny 4.11:

    dafny verify dfyconfig.toml

Each module models one component in the component's own form: code that changes
state is a class or a method with loops, tied to a specification on values, and
the properties are lemmas about that specification or contracts of the methods.

| module | component |
|---|---|
| EmbeddingDigest, JsonText | the streaming digest of embedding responses, and JSON texts (sections 2, 4, 5 and 7 of RFC 8259) |
| DownloadJobs, DownloadManager, WorkerPool | the life of download jobs: runs, pauses, resumes, cancels, crashes, and the workers of a run |
| Promotion, FileNames | replacing files by renames, and the recovery walk |
| Transfer | resumable transfers with incremental digests and retries (sections 14.2, 14.4, 15.3.7 and 15.5.17 of RFC 9110) |
| ArtifactQueue, StorageSpace, Plan | delivery of finished artifacts, reserved space, download plans |
| Rollups, EventBuffer, ResponseMerge | analytics: raw events and rollups, the buffer before them, merging the cluster's answers |
| Redaction, LoadCapture | capturing the output of a load and redacting it across chunks |
| Fingerprint | the canonical form that decides which configurations share a loaded model |
| Identity, Registry | public model IDs, replica selection and leases |
| Basics, Ordering, KeyedTotals | shared definitions: decimals, sorting, maps whose values add up |

How things are modelled. Concurrent code is a state machine with one step for
each region under a lock, SQL statement or channel event, and the theorems
quantify over every interleaving of steps; the classes beside it are proved to
take exactly these steps. SQL tables are sequences or maps that a statement
changes at once. Hash functions are arbitrary functions of the bytes absorbed.
Floating-point numbers are exact reals and integers are unbounded. Time is an
integer. What the code reads from outside - server replies, free space, failing
renames and writes - is a parameter, and so is the reading of a JSON string.

Where natural claims are false of the code, the exact condition is proved:

- Averages of token rates from rollups include load events, those from raw events
  do not. They agree on all histories from a set of events exactly when no load in
  the set carries a rate (`Rollups.RatesAgreeExactly`).
- The choice between raw events and rollups and the read itself are separate; a
  prune at midnight between them can lose a day (`Rollups.MidnightPrune`). A query
  that chose the raw events is right on every history exactly when the cutoff of
  each prune between choice and read is at or before the start of its window
  (`Rollups.ReadAfterChoiceExactly`).
- Models with different local IDs can share a public ID, exactly when one local ID
  is the other with the number of one of its groups (`Identity.NamesCollideExactly`,
  with an instance in `Identity.SecondGroupMeetsName`).
- Route keys tell the models of two nodes apart exactly when neither node ID is the
  other with a colon and more after it (`Identity.RouteKeyInjective`); the public
  IDs of a list of models are the assigned ones exactly when its route keys do
  (`Identity.AssignPublicIds`, with an instance in `Identity.ColonInNodeId`).
- A running job has a run at work on it, until `Close`, exactly when no statement
  that was to end its work failed (`DownloadJobs.LostExactly`, with an instance in
  `DownloadJobs.LostReached`).
- A destination that existed survives a crash and the recovery walk exactly when it
  is there or has a backup other than one whose original cannot be looked up and that
  can be removed (`Promotion.CrashAndRecover`, with an instance in
  `Promotion.FailedLookupLoses`).
- All selections for a name share one turn counter, so the remote choices of one are
  shared out evenly in every run exactly when it has one remote replica at most or no
  other selection has any (`Registry.FairExactly`, with the run in
  `Registry.SharedCounterUnfair`).
- The total of every plan that can be made of a listing is the sum of its sizes
  exactly when, for each path listed without a negative size, the listed sizes add
  up to the first one as often as the path is listed (`Plan.TotalExactly`).

## Model

| member | source | states |
|---|---|---|
| EmbeddingDigest.DigestMeaning | internal/analytics/embedding_digest.go:33-148 | for every JSON object, with any white space, nesting, strings and member order: the bytes kept are the document with the contents of each top-level vector array removed, and the vectors counted are the elements of `data` and `embeddings` plus one for each `embedding` |
| EmbeddingDigest.Observe | internal/analytics/embedding_digest.go:33-44 | feeding the printed document in any chunks keeps exactly those bytes, or their first 64 KiB with overflow set exactly when there are more |
| EmbeddingDigest.RunTopMembers | internal/analytics/embedding_digest.go:50-79 | the simulation over the members of the top-level object: where the machine is after each member and what it kept |
| EmbeddingDigest.RunVectorArray | internal/analytics/embedding_digest.go:98-148 | a vector array adds only its brackets to what is kept and its element count to the vectors, whatever is nested in it |
| EmbeddingDigest.RunElidedItems | internal/analytics/embedding_digest.go:98-110 | inside a vector array nothing is kept and each element is counted once, at its first byte |
| EmbeddingDigest.RunCopiedValue | internal/analytics/embedding_digest.go:50-148 | any other value is copied byte for byte and leaves depth, string and key state as it found them |
| EmbeddingDigest.RunString | internal/analytics/embedding_digest.go:81-96 | a string ends at its first unescaped quote, and only a key string of the top level is remembered as a key |
| EmbeddingDigest.Digest.ConsumeByte | internal/analytics/embedding_digest.go:50-79 | one byte does to the fields what one step of the machine does |
| EmbeddingDigest.Digest.ConsumeToken | internal/analytics/embedding_digest.go:57-79 | a structural byte outside strings opens, closes, separates or counts as the machine says |
| EmbeddingDigest.Digest.ConsumeStringByte | internal/analytics/embedding_digest.go:81-96 | a byte inside a string: escapes, the closing quote and key bytes |
| EmbeddingDigest.Digest.CountElementStart | internal/analytics/embedding_digest.go:98-110 | the start of an element is counted once and only directly inside a vector array |
| EmbeddingDigest.Digest.Open | internal/analytics/embedding_digest.go:112-129 | an opening bracket enters a vector array only under a top-level vector key |
| EmbeddingDigest.Digest.Close | internal/analytics/embedding_digest.go:131-137 | a closing bracket leaves a vector array at the depth where it was entered |
| EmbeddingDigest.Digest.Keep | internal/analytics/embedding_digest.go:139-148 | kept bytes are appended up to 64 KiB; one more sets overflow |
| EmbeddingDigest.Digest.Write | internal/analytics/embedding_digest.go:33-37 | a chunk is the sequence of its bytes |
| DownloadJobs.InvKept | internal/downloader/job_runner.go:16-181 | every event - a lock region, an SQL statement, a channel event, a crash or a recovery step - keeps the protocol invariant |
| DownloadJobs.InvReached | internal/downloader/job_runner.go:16-181 | the invariant holds after every possible history from an empty manager |
| DownloadJobs.OneRunPerJob | internal/downloader/job_runner.go:16-38 | over every interleaving at most one run of a job is inside `manager.run` |
| DownloadJobs.FinalChangeByStarter | internal/downloader/job_runner.go:63-112 | each running to completed or running to failed change is made by the run that made the latest queued to running change |
| DownloadJobs.RunningHasOneRun | internal/downloader/job_runner.go:63-99 | until `Close`, a running job has exactly one run inside, and it holds a semaphore slot, unless the statement that was to end its work, or the requeueing, failed |
| DownloadJobs.RunningJobsBounded | internal/downloader/job_runner.go:63-76 | until `Close`, at most `ConcurrentJobs` jobs are running, not counting jobs lost to such a failure |
| DownloadJobs.LostExactly | internal/downloader/job_runner.go:91-106 | until `Close`, a running job has a run at work on it exactly when no such statement failed since it was last started |
| DownloadJobs.LostReached | internal/downloader/job_runner.go:63-112 | the input that shows a job can be lost: its row cannot be read once it is running, nor then be set to failed |
| DownloadJobs.NothingLost | internal/downloader/job_runner.go:91-106 | a history in which none of these statements fails loses no job |
| DownloadJobs.FinalStatesStay | internal/downloader/store_jobs.go:123-135 | completed and cancelled are absorbing over every history, restarts and requeueing included |
| DownloadJobs.DeadForever | internal/downloader/manager.go:234-251 | once a job is dead - final, with no run that has it in hand - it stays dead and its staging directory is not made again |
| DownloadJobs.RemovalIsFinal | internal/downloader/job_runner.go:48-61 | whenever a cancel or a finishing run removes a staging directory, no run of the job is transferring or ever will |
| DownloadJobs.CompletedFilesStay | internal/downloader/store_jobs.go:137-155 | a completed file stays completed, with as many bytes as its size, across pauses, resumes, failures and restarts |
| DownloadJobs.CompletedJobsAreWhole | internal/downloader/job_runner.go:78-99 | a completed job has every file completed |
| DownloadJobs.RunsAfterStep | internal/downloader/job_runner.go:16-61 | a run step keeps the chain of runs of a job and the running map |
| DownloadJobs.SlotsAfterStep | internal/downloader/job_runner.go:63-76 | the slots taken are the runs that hold one, and stay within the capacity |
| DownloadJobs.InHandAfterStep | internal/downloader/job_runner.go:69-112 | until `Close`, a running job keeps its starter at work through every step of every run that is not a failing final statement |
| DownloadJobs.FilesAfterStep | internal/downloader/job_runner.go:114-181 | files complete only under the one run that has the job in hand |
| DownloadJobs.RemovalsAfterStep | internal/downloader/job_runner.go:48-61 | whoever is about to remove a staging directory found the job dead |
| DownloadJobs.StartKeeps | internal/downloader/job_runner.go:16-38 | starting a run, behind the previous one of its job, keeps the invariant |
| DownloadJobs.TransitionKeeps | internal/downloader/manager.go:210-251 | the compare-and-set of pause, resume and cancel keeps the invariant |
| DownloadJobs.LastCallKeeps | internal/downloader/manager.go:210-251 | so does what each of these calls does after its compare-and-set |
| DownloadJobs.CreateKeeps | internal/downloader/manager.go:162-202 | so does creating a job with queued files |
| DownloadJobs.RecoveryKeeps | internal/downloader/recovery.go:13-33 | so do pruning, orphan removal and requeueing after a crash, and a requeueing that fails |
| WorkerPool.StepKeeps | internal/downloader/job_runner.go:224-256 | every step of the dispatcher, of a worker and of the contexts keeps the slots, the first error and the items in step |
| WorkerPool.WorkersBounded | internal/downloader/job_runner.go:224-256 | over every interleaving at most `limit` workers, or one, are at work |
| WorkerPool.ReturnsExactly | internal/downloader/job_runner.go:224-256 | when the pool returns nobody is at work; it returns no error exactly when every item was worked on without one, unless the context was cancelled; an error is that of an item that failed, or of the context when none did |
| WorkerPool.NothingStartedAfterStop | internal/downloader/job_runner.go:224-256 | nothing more is started once an item has failed or the context is done, but for one item that had passed the check |
| WorkerPool.PoolDecides | internal/downloader/job_runner.go:224-256 | a run whose pool has returned may fail its transfer, and succeed with it when the pool returned no error |
| DownloadManager.Manager.TransitionJob | internal/downloader/store_jobs.go:123-135 | changes the state exactly when the row is in one of the given states, and reports whether it did |
| DownloadManager.Manager.UpdateFile | internal/downloader/store_jobs.go:137-143 | changes one file of one job and nothing else |
| DownloadManager.Manager.ChangeFiles | internal/downloader/store_jobs.go:165-178 | changes every file of one job by the given rule, in a loop over its files |
| DownloadManager.Manager.FailUnfinishedFiles | internal/downloader/store_jobs.go:145-147 | every queued or running file becomes failed |
| DownloadManager.Manager.ResetUnfinishedFiles | internal/downloader/store_jobs.go:149-151 | every file that is not completed becomes queued |
| DownloadManager.Manager.CompleteAllFiles | internal/downloader/store_jobs.go:153-155 | every file becomes completed with all its bytes |
| DownloadManager.Manager.RequeueInterrupted | internal/downloader/store_jobs.go:180-209 | running jobs and running files become queued again, and what is restarted are the jobs that were queued or running |
| DownloadManager.Manager.StartJob | internal/downloader/job_runner.go:16-38 | registers a run that waits for the job's previous run, unless the manager is closed |
| DownloadManager.Manager.CancelCurrent | internal/downloader/job_runner.go:40-46 | cancels the run registered for the job, if there is one |
| DownloadManager.Manager.FinishRun | internal/downloader/job_runner.go:48-61 | is the protocol events of reading the row, leaving the map and, exactly when a cancelled row was read, removing the staging directory; a row that cannot be read counts as not cancelled |
| DownloadManager.Manager.TakeSlot | internal/downloader/job_runner.go:63-69 | the select takes a free slot or sees the cancellation, and may do either when both are ready |
| DownloadManager.Manager.TryStartJob | internal/downloader/job_runner.go:70-77 | the compare-and-set from queued to running, which makes this run the job's starter; a failing statement starts nothing |
| DownloadManager.Manager.CompleteRun | internal/downloader/job_runner.go:91-97 | the final change of a transferred job, and then of its files, only when the job is still running; either statement may fail |
| DownloadManager.Manager.FailRunningJob | internal/downloader/job_runner.go:101-112 | the same for a failed transfer |
| DownloadManager.Manager.ReleaseSlot | internal/downloader/job_runner.go:69 | frees the slot |
| DownloadManager.Manager.TransferFile | internal/downloader/job_runner.go:147-181 | the row of one file is running from the staged bytes on, and completed only after download, verification and promotion; either update of the row may fail, which breaks the file |
| DownloadManager.Manager.PauseJob | internal/downloader/manager.go:210-218 | is a pause event and its follow-up, or nothing when the state does not allow it |
| DownloadManager.Manager.ResumeJob | internal/downloader/manager.go:220-232 | is a resume event, the reset of unfinished files and a new run; when the reset fails the job stays queued without one |
| DownloadManager.Manager.CancelJob | internal/downloader/manager.go:234-251 | is a cancel event and either a signal to the run or the removal of the staging directory |
| Promotion.StepKeeps | internal/downloader/promotion.go:29-60 | every step of every one of any number of concurrent promotions keeps the invariant: each destination that existed is there, or its backup is |
| Promotion.InvAlways | internal/downloader/promotion.go:29-60 | the invariant holds between any two steps of any run |
| Promotion.PlacedHolds | internal/downloader/promotion.go:43-55 | placing a file puts the verified content at the destination |
| Promotion.CrashIsRecoverable | internal/downloader/recovery.go:35-61 | whatever a crash leaves behind has whole contents under proper names, and a copy of every earlier destination |
| Promotion.WalkedStep | internal/downloader/recovery.go:35-61 | visiting one file of the walk keeps contents whole and the same destinations alive, and leaves no marker behind for it when its rename or removal succeeds |
| Promotion.Storage.RestoreInterruptedPromotions | internal/downloader/recovery.go:35-67 | after the walk the only marker files are those that could not be renamed or removed, each file holds a complete earlier or verified new content, and exactly the destinations are kept that were there or had a backup whose lookup, or whose removal, does not go wrong |
| Promotion.Storage.Visit | internal/downloader/recovery.go:36-67 | one file: temporaries go, a backup goes when its original is there or cannot be looked up and takes its place when it is missing; nothing changes when the operation fails |
| Promotion.Storage.Promote | internal/downloader/promotion.go:15-93 | an existing snapshot file is compared and left alone; otherwise on success the new content is in place, and on failure the old content is back unless the rename back failed, in which case the backup holds it; with every operation that may fail |
| Promotion.Storage.ReplaceDestination | internal/downloader/promotion.go:38-60 | moving the temporary file into place, setting aside what is there, with the rollback of each failing rename |
| Promotion.CrashAndRecover | internal/downloader/recovery.go:35-67 | if the process stops between any two steps of any number of promotions, recovery leaves every earlier destination with a complete old or verified new content and no marker file; where a rename or removal of the walk fails the complete copy is still set aside; where a lookup fails a destination is kept exactly when it was there or another backup survives |
| Promotion.FailedLookupLoses | internal/downloader/recovery.go:46-60 | the input that shows it: stopped between the two renames, a file whose lookup then fails loses its only copy |
| FileNames.OrdinaryName | internal/downloader/recovery.go:88-90 | a repository name without markers is taken for an ordinary file |
| FileNames.BackupRoundTrip | internal/downloader/recovery.go:47-58 | the walk reads the original name back from a backup name |
| FileNames.TemporaryRecognised | internal/downloader/recovery.go:41-46 | the walk takes a temporary name for a temporary |
| FileNames.BackupInjective | internal/downloader/promotion.go:11-13 | backups of different files or jobs have different names |
| FileNames.TemporaryInjective | internal/downloader/promotion.go:11-13 | temporaries of different files or jobs have different names |
| Transfer.Download.Attempt | internal/downloader/transfer.go:53-115 | whenever an attempt succeeds, fresh, resumed (206), restarted (200) or already complete (416), the digests are those of exactly the staged bytes, which are as many as expected; what is left staged and when it succeeds, for every reply and every failing operation on the file |
| Transfer.Download.OpenStaging | internal/downloader/transfer.go:133-158 | too long a staged file is thrown away and the offset is the length of what is left; fails when it cannot be removed or opened |
| Transfer.Download.Receive | internal/downloader/transfer.go:88-114 | the body is appended to file and hasher alike, and success means the expected length, written through |
| Transfer.Download.HashComplete | internal/downloader/staged_hash.go:65-72 | the digests of a file that is complete already, if it can be read back |
| Transfer.Download.DownloadFile | internal/downloader/transfer.go:25-51 | the retry loop: success is verified; against a server that answers each range with true bytes it ends within (expected size + 1)(retry limit + 1) attempts, and with the true file when what was staged is a first part of it |
| Transfer.HonestAttempt | internal/downloader/transfer.go:53-115 | an honest reply leaves a file that is no shorter and not too long, and a first part of the true file if it was one, whatever fails on the disk |
| Transfer.Progress | internal/downloader/transfer.go:29-50 | the lexicographic measure of bytes missing and retries left, as a bound on the attempts |
| Transfer.Download.TransferFile | internal/downloader/job_runner.go:147-181 | what is accepted has the expected size and the promised SHA-256, or the promised git blob digest where no SHA-256 is given |
| Transfer.VerifyStaged | internal/downloader/job_runner.go:183-197 | accepts exactly the promised size and, of the promised digests, the first that is well formed: SHA-256 without its prefix, git blob in lower case |
| Transfer.StagedHasher.constructor | internal/downloader/staged_hash.go:25-47 | starts from the given first bytes, with the git blob header when the size is known |
| Transfer.NewStagedHasher | internal/downloader/staged_hash.go:25-47 | a hasher of exactly the first bytes of the file; none when it cannot be opened or shrank |
| Transfer.StagedHasher.Write | internal/downloader/staged_hash.go:49-55 | absorbs the bytes into both hashes |
| Transfer.StagedHasher.Sum | internal/downloader/staged_hash.go:57-63 | gives the digests of exactly the bytes absorbed |
| Redaction.ReplacementKeys | internal/loadcapture/store.go:358-367 | the keys that are not blank, white space being that of Unicode in UTF-8, longest first |
| Redaction.FirstIsLongest | internal/loadcapture/store.go:318-330 | the first key found at a position is the longest that occurs there |
| Redaction.OrderIrrelevant | internal/loadcapture/store.go:358-367 | how ties between keys of one length are broken does not matter |
| Redaction.RedactIsSplice | internal/loadcapture/store.go:302-343 | redacting is splicing replacements over disjoint spans, left to right |
| Redaction.OccurrencesOverlapSpans | internal/loadcapture/store.go:302-343 | every occurrence of a key in the text overlaps a replaced span |
| Redaction.DealtJoins | internal/loadcapture/store.go:302-343 | what is dealt out to the chunks, joined, is the redaction of the whole text |
| Redaction.SanitizeChunks | internal/loadcapture/store.go:302-343 | the sanitized chunks are the redacted text dealt out to the chunks each byte came from |
| Redaction.Deal | internal/loadcapture/store.go:318-335 | the position loop: a replacement goes to the chunk where its key starts |
| Redaction.Combine | internal/loadcapture/store.go:303-317 | the combined text and the chunk each byte came from |
| Redaction.MatchAt | internal/loadcapture/store.go:320-327 | finds the first key that occurs at a position |
| Redaction.ChunkingIrrelevant | internal/loadcapture/store.go:302-343 | however a text is cut into chunks, its redaction is the same |
| Redaction.CaptureRedactions | internal/loadcapture/store.go:345-356 | exactly the given redactions and, in place of any given for it, every trimmed secret that is not blank under the redaction mark; white space is that of Unicode in UTF-8 |
| Redaction.SecretIsKey | internal/loadcapture/store.go:345-367 | every secret, trimmed, is among the keys the scan looks for, and is replaced by the mark |
| LoadCapture.Hub.Subscribe | internal/loadcapture/hub.go:89-112 | a capture starts empty, with a limit of at least one byte |
| LoadCapture.Hub.Record | internal/loadcapture/hub.go:122-155 | whatever is written reaches every subscriber, in chunks of at most 256 KiB, each capture keeping its bounded first part |
| LoadCapture.Hub.RecordChunk | internal/loadcapture/hub.go:130-154 | one chunk takes the next sequence number and reaches every subscriber |
| LoadCapture.RecordOne | internal/loadcapture/hub.go:133-152 | one subscriber takes what still fits of a chunk and notes truncation |
| LoadCapture.RecordedCaptures | internal/loadcapture/hub.go:133-152 | a capture that holds the first bytes written still does after one more chunk |
| LoadCapture.CompletePhysical | internal/loadcapture/store.go:125-165 | what is stored is the redaction of the captured bytes by exactly the given keys and the secrets, each piece in the chunk its text started in, in sequence order |
| LoadCapture.StoredHidesKeys | internal/loadcapture/store.go:302-343 | no occurrence of a given key or of a secret in the captured bytes survives untouched in what is stored |
| LoadCapture.CaptureWrites | internal/loadcapture/hub.go:89-155 | end to end: however the output was written, what is stored is the redaction of its first min(limit, total) bytes by exactly the given keys and the secrets, in sequence order |
| Rollups.UpsertTotals | internal/analytics/rollup_sql.go:52-84 | merging a row into the table has the effect on every aggregate that keeping it apart would have |
| Rollups.RowHoldsItsEvents | internal/analytics/rollup_sql.go:15-42 | there is one row a key, and it holds the totals of the events of its key, sum or maximum as the column rules |
| Rollups.HoursMakeTheDay | internal/analytics/store.go:387-444 | the hour rollups of a day add up, column by column, to its day rollups |
| Rollups.ImportKeepsTotals | internal/analytics/schema.go:127-148 | taking another database's rollups in gives every aggregate over the events of both |
| Rollups.RollupsAnswerForDays | internal/analytics/store_rollup_query.go:26-73 | day rollups answer for the whole days touched as the raw events would; rate averages too where no load carries a rate |
| Rollups.RatesAgreeExactly | internal/analytics/store_query.go:106-156 | rate averages of rollups and raw events agree on every history drawn from a set of events exactly when no load event in it carries a rate |
| Rollups.LoneLoadDisagrees | internal/analytics/store.go:387-435 | a load event that carries a rate is averaged by the rollups alone |
| Rollups.HistoryKeeps | internal/analytics/store.go:119-146 | after every history of writes and prunes the raw table has all events from the horizon on and the rollups those of every event ever written |
| Rollups.PruningKeepsAnswers | internal/analytics/store_rollup_query.go:8-11 | pruning never changes an answer: a summary starting at or after the cutoff sees every event ever written in its window, an earlier one all events of the days it touches |
| Rollups.PruningKeepsLabels | internal/analytics/store_rollup_query.go:13-24 | after any pruning the rollups list exactly the nodes, models and sections of the days touched |
| Rollups.RawRightExactly | internal/analytics/store.go:119-146 | for given prunes, the raw table answers for every window start as if nothing had been pruned, whatever was written, exactly when each prune spared that start |
| Rollups.ReadAfterChoiceExactly | internal/analytics/store_rollup_query.go:8-11 | a query that chose the raw table is right on every history exactly when each prune between its choice and its read has a cutoff at or before the start of the window |
| Rollups.MidnightPrune | internal/analytics/store_rollup_query.go:8-11 | the input that shows it: a request is counted before a prune at midnight and not after it, by a query that chose the raw table before |
| Rollups.DaysInOrder | internal/analytics/store_rollup_query.go:172-182 | rounding a window to whole days takes in exactly the days it touches |
| Rollups.Normalize | internal/analytics/query.go:47-67 | a normalized window starts at zero or later and is not empty; its missing ends are the present and the span before the end; trimming its filters keeps their meaning; refused exactly when it would be empty |
| Rollups.EventStore.WriteEvents | internal/analytics/store.go:294-385 | one transaction: all events are in the raw table and both rollups, or nothing is changed |
| Rollups.WriteRollups | internal/analytics/store.go:387-435 | an event is merged into its hour row and its day row |
| Rollups.EventStore.Prune | internal/analytics/store.go:119-126 | is a prune of the history, or nothing when the statement fails; without a retention nothing is pruned |
| Rollups.EventStore.ChooseTable | internal/analytics/store_rollup_query.go:8-11 | the rollups are read exactly for windows before the cutoff; for others all prunes so far spared the window |
| Rollups.EventStore.ReadSummary | internal/analytics/store_query.go:106-156 | reading the chosen table, after whatever came between: right whenever the prunes so far spared the window, and always from the rollups |
| Rollups.EventStore.QuerySummary | internal/analytics/store_query.go:106-156 | what a summary covers is said of every event ever written |
| EventBuffer.StepConserves | internal/analytics/store.go:85-117 | recording, taking, writing and putting back keep every event somewhere, as often as it was recorded, and the buffer bounded |
| EventBuffer.ExactlyOnePlace | internal/analytics/store.go:85-117 | with any interleaving of recorders and flushers, an event recorded once is buffered, held by one flusher, written once or dropped, and only one of these |
| EventBuffer.AllWritten | internal/analytics/store.go:104-117 | once nothing is buffered or held, all that was not dropped is written, once |
| EventBuffer.DropsOnlyAtLimit | internal/analytics/store.go:85-102 | a step drops only the oldest events that no longer fit, and leaves the buffer full |
| EventBuffer.NothingLostBelowLimit | internal/analytics/store.go:217-227 | while no more events were recorded than fit, none is dropped |
| EventBuffer.Buffer.Record | internal/analytics/store.go:85-102 | is a record step; asks for a flush from 1000 events on |
| EventBuffer.Buffer.TakeBuffered | internal/analytics/store.go:203-215 | is a take step |
| EventBuffer.Buffer.Requeue | internal/analytics/store.go:217-227 | is a failed write: taken events go back before those recorded since, the newest that fit |
| EventBuffer.Buffer.Flush | internal/analytics/store.go:104-117 | all of the buffer is written, or none of it and it is kept; what is written stays written when the prune after it fails |
| ResponseMerge.WeightedAssociative | internal/analytics/response_merge.go:256-262 | weighted averages of exact numbers do not depend on how they were grouped |
| ResponseMerge.PlusSummaryAssociative | internal/analytics/response_merge.go:154-176 | nor do merged summaries, with failures recomputed at every level |
| ResponseMerge.TotalsAdd | internal/analytics/response_merge.go:178-214 | nor do timeline buckets and their section counts |
| ResponseMerge.UsageAdds | internal/analytics/response_merge.go:216-254 | nor do section, model and node lines |
| ResponseMerge.PlusAssociative | internal/analytics/response_merge.go:37-62 | nor does all that a response says |
| ResponseMerge.MergeTimelineSections | internal/analytics/response_merge.go:199-214 | the merged list has the sum of both lists' requests for each section, in the order of the names |
| ResponseMerge.AddTimeline | internal/analytics/response_merge.go:178-197 | a bucket added to another has the sum of their numbers and section counts |
| ResponseMerge.AddBuckets | internal/analytics/response_merge.go:43-50 | a timeline is added bucket by bucket |
| ResponseMerge.AddUsages | internal/analytics/response_merge.go:51-59 | a list of lines is added by key, the first line of a key keeping its names |
| ResponseMerge.AddFilterValues | internal/analytics/response_merge.go:137-143 | the names that are not empty are added |
| ResponseMerge.SortedValues | internal/analytics/response_merge.go:264-270 | every value of the map once, sorted, equals in any order |
| ResponseMerge.LatestRecent | internal/analytics/response_merge.go:114-120 | the shown events have the 100 latest finishing times |
| ResponseMerge.Merger.AddHeader | internal/analytics/response_merge.go:64-76 | the earliest start that is not zero, the latest end, the first granularity |
| ResponseMerge.Merger.Add | internal/analytics/response_merge.go:37-62 | after one more response, what is said is what was said plus what it says |
| ResponseMerge.Merger.Result | internal/analytics/response_merge.go:78-127 | the merged response says what was said, with its lists in order and its history cut |
| ResponseMerge.Merge | internal/analytics/response_merge.go:21-35 | merging says what the responses say one after the other |
| ResponseMerge.GroupingKeepsTotal | internal/analytics/response_merge.go:21-94 | merging merged groups, to any depth, says what all the responses say one after the other |
| ResponseMerge.GroupingIrrelevant | internal/analytics/response_merge.go:21-127 | two ways of grouping the same responses show the same summary, windows and filters, the same timeline and node lists, the same section and model lines, each once, the same finishing times and the same versions |
| Fingerprint.EncodedKeyInjective | internal/catalog/chat_template.go:298-302 | different member names are written differently |
| Fingerprint.TextInjective | internal/catalog/chat_template.go:284-355 | a canonical text, whatever ends it, is the text of one value only |
| Fingerprint.NormalExact | internal/catalog/chat_template.go:284-355 | values have one canonical form exactly when they agree up to member order and white space |
| Fingerprint.CanonicalExact | internal/catalog/chat_template.go:284-355 | canonical texts are equal exactly when the values agree recursively up to member order and inter-token white space |
| Fingerprint.StandsInjective | internal/catalog/chat_template.go:284-296 | two maps of members print alike exactly when they have the same names and, name by name, values that print alike |
| Fingerprint.DecodeUnique | internal/catalog/chat_template.go:191-238 | decodes an object exactly when no object in it repeats a member |
| Fingerprint.ValidateUnique | internal/catalog/chat_template.go:240-282 | accepts exactly the values that repeat no member anywhere |
| Fingerprint.CanonicalObject | internal/catalog/chat_template.go:284-310 | prints the members in the order of their names |
| Fingerprint.CanonicalValue | internal/catalog/chat_template.go:312-355 | prints the canonical text of a value, or fails exactly when it repeats a member |
| Fingerprint.CanonicalItems | internal/catalog/chat_template.go:323-350 | prints the items of an array in order |
| Fingerprint.PhysicalLoadText | internal/catalog/chat_template.go:158-185 | what is hashed: the precedence dropped, the template arguments replaced by their names; fails exactly when these are no proper object |
| Fingerprint.HashedTextExact | internal/catalog/chat_template.go:158-185 | two hashed texts are equal exactly when the template arguments have the same names and everything else but the precedence agrees |
| Fingerprint.ProfileText | internal/catalog/chat_template.go:30-65 | a configuration has a hashed text exactly when it is an object without repeated members and its template arguments and their precedence can be read |
| Fingerprint.SharesExactly | internal/catalog/chat_template.go:138-140 | two configurations share a hashed text exactly when their template arguments have the same names and the values to load with agree |
| Fingerprint.KwargsValuesIrrelevant | internal/catalog/chat_template.go:158-185 | configurations that differ only in the values of their template arguments share a fingerprint |
| Identity.SameNameSameHashes | internal/cluster/identity.go:14-46 | among models with one local ID, two get the same public ID exactly when their model and config hashes match, where neither model hash is the other with a colon and more after it |
| Identity.IdentityInjective | internal/cluster/identity.go:75-77 | an identity tells pairs of hashes apart exactly when neither model hash is the other with a colon and more after it |
| Identity.LocalKeepsName | internal/cluster/identity.go:79-85 | a master or local model keeps its bare ID whatever slaves bring, and of the models with its local ID exactly those with its hashes share it |
| Identity.BareNameGiven | internal/cluster/identity.go:27-34 | some group of each local ID has the bare ID |
| Identity.RegistrationOrderIrrelevant | internal/cluster/identity.go:48-51 | the names do not depend on the order of registration |
| Identity.NamesCollideExactly | internal/cluster/identity.go:29-33 | some models of two local IDs share a public ID exactly when one local ID is the other with the number of one of its groups but the first |
| Identity.SecondGroupMeetsName | internal/cluster/identity.go:27-33 | two identities of `m` beside a model `m-2` are such models |
| Identity.RouteKeyInjective | internal/cluster/identity.go:91-93 | with hashes that have no colon, route keys tell the models of two nodes apart exactly when neither node ID is the other with a colon and more after it |
| Identity.ColonsCollide | internal/cluster/identity.go:91-93 | two such nodes have models with different local IDs and one route key |
| Identity.ColonInNodeId | internal/cluster/identity.go:39-43 | nodes `a` and `a:b`: two models, each alone with its local ID and due that name, with one route key |
| Identity.IdentityGroups | internal/cluster/identity.go:48-73 | one group for each identity, in the order they first appear, with all its models |
| Identity.AssignPublicIds | internal/cluster/identity.go:14-46 | sets every public ID in place and nothing else; with hashes that have no colon all are the assigned ones exactly when no two models with different local IDs have one route key |
| Identity.SharedKeyMisnames | internal/cluster/identity.go:39-43 | two models with different local IDs and one route key never both get their names |
| Registry.FairShare | internal/cluster/registry.go:463-492 | in any stretch of any run of choices, with local choices and other names in between, over which the available remote replicas of each selection stay the same, a selection that has the counter of the name to itself gives each of its k replicas n/k of its n remote choices, rounded down or up |
| Registry.FairExactly | internal/cluster/registry.go:463-492 | every run shares the choices of a selection out evenly exactly when it has one remote replica at most or no other selection for the name has any |
| Registry.SharedCounterUnfair | internal/cluster/registry.go:463-492 | two selections for one name share its counter: chosen, turned back by the other and chosen again, one of several replicas has both choices |
| Registry.TurnsWalk | internal/cluster/registry.go:478-483 | what a run of choices gives a replica is what a walk round the replicas gives its place |
| Registry.ReplicasDistinct | internal/cluster/registry.go:528-604 | with one record for each node and local ID no selection lists a replica twice |
| Registry.Cluster.FairTurns | internal/cluster/registry.go:463-492 | the same of the choices made by any reachable registry |
| Registry.TurnAdvances | internal/cluster/registry.go:479-481 | the counter kept modulo the number of replicas walks round them |
| Registry.ChoiceFailsExactly | internal/cluster/registry.go:463-492 | selection fails exactly when no replica is usable, and otherwise picks a usable one |
| Registry.SelectRoute | internal/cluster/registry.go:463-492 | an idle healthy local replica first, then the remote one whose turn it is, then a busy local one |
| Registry.LeaseOpened | internal/cluster/registry.go:397-400 | taking a lease keeps the busy counts equal to the outstanding leases |
| Registry.LeaseClosed | internal/cluster/registry.go:402-411 | so does giving one back, and the count is then not zero |
| Registry.ViewWellNamed | internal/cluster/registry.go:415-426 | in a rebuilt view local models keep their names, and among models with one local ID the same name means the same hashes |
| Registry.Gather | internal/cluster/registry.go:428-454 | the candidates are the local models and then those of each node, in the order of node IDs |
| Registry.Cluster.Rebuild | internal/cluster/registry.go:415-426 | the view holds every candidate once under its public ID, sorted |
| Registry.Cluster.UpdateLocal | internal/cluster/registry.go:45-52 | replaces the local models and rebuilds |
| Registry.Cluster.UpdateNode | internal/cluster/registry.go:54-89 | takes a snapshot in, its models named by their local IDs, exactly when its trimmed ID is not empty, its URL is valid, its protocol is recent enough and ID and URL clash with no other node or the registry itself |
| Registry.Cluster.MarkNodeHealth | internal/cluster/registry.go:91-101 | changes one node's health and rebuilds |
| Registry.Cluster.MarkNodeUrlHealth | internal/cluster/registry.go:103-121 | changes the health of exactly the nodes at a URL and rebuilds |
| Registry.Cluster.Acquire | internal/cluster/registry.go:293-385 | chooses among the enabled models a selection takes to serve the name, takes one lease, and adds the choice to the run of choices |
| Registry.Cluster.AcquireRoute | internal/cluster/registry.go:397-413 | one lease more on a route, under a number no other lease has |
| Registry.Cluster.Release | internal/cluster/registry.go:402-411 | gives a lease back; a second call changes nothing |
| ArtifactQueue.StepKeeps | internal/downloader/artifact_queue.go:20-64 | no step loses, doubles or reorders a record, or parks the deliverer with work, a handler and no signal on its way |
| ArtifactQueue.DeliveredInOrder | internal/downloader/artifact_queue.go:45-64 | in every run what was handed over is the beginning of what was pushed, in push order |
| ArtifactQueue.QuiescentIsDrained | internal/downloader/artifact_queue.go:38-64 | when the deliverer rests with no token and nobody about to signal, everything pushed was handed over unless there is no handler |
| ArtifactQueue.DrainingFinishes | internal/downloader/artifact_queue.go:51-62 | a woken deliverer left alone hands over all that is pending and parks |
| ArtifactQueue.Queue.Push | internal/downloader/artifact_queue.go:27-32 | is a push step; the signal follows |
| ArtifactQueue.Queue.SetHandler | internal/downloader/artifact_queue.go:20-25 | is a handler change; the signal follows |
| ArtifactQueue.Queue.Signal | internal/downloader/artifact_queue.go:38-43 | leaves one wake token |
| ArtifactQueue.Queue.TakeNext | internal/downloader/artifact_queue.go:52-60 | takes the oldest record, or finds no work and parks |
| ArtifactQueue.Queue.Deliver | internal/downloader/artifact_queue.go:45-64 | one wake-up calls the handler with all pending records in order |
| StorageSpace.Manager.CheckFreeSpace | internal/downloader/storage_space.go:31-49 | passes exactly when every volume can be read and every known one keeps its reserve |
| StorageSpace.Manager.ReserveSpace | internal/downloader/storage_space.go:14-29 | each grant leaves the configured reserve on every known volume, and adds what was asked to what is reserved |
| StorageSpace.Manager.Release | internal/downloader/storage_space.go:21-28 | takes a grant off what is reserved once |
| StorageSpace.Manager.NeverNegative | internal/downloader/storage_space.go:14-29 | what is reserved is the sum of the live grants and never negative |
| Plan.SelectedPlannedFiles | internal/downloader/plan_build.go:81-96 | records the first file listed under each selected path, or names one that is not listed |
| Plan.AddSmartDependencies | internal/downloader/plan_build.go:127-137 | adds exactly the listed files that are needed and not selected |
| Plan.OrderedPlannedFiles | internal/downloader/plan_build.go:102-118 | the planned files in path order and the sum of the listed sizes; fails exactly on a negative size |
| Plan.SelectPaths | internal/downloader/plan_build.go:62-79 | what is asked for, or everything; fails exactly on an invalid path or an incomplete snapshot |
| Plan.BuildPlan | internal/downloader/plan_build.go:22-60 | fails exactly on an invalid name or path, an incomplete snapshot, an unlisted path, a negative size, names that differ only by letter case where that matters, or no destination; otherwise holds the records of all that is wanted, with an exact total where no path is listed with two sizes |
| Plan.FindCollision | internal/downloader/portable_name.go:47-60 | finds two planned names that differ only by letter case, if there are any |
| Plan.TotalExact | internal/downloader/plan_build.go:102-118 | the file sizes, dependencies included, sum to the total where no path is listed with two sizes |
| Plan.TotalExactly | internal/downloader/plan_build.go:102-118 | every plan that can be made of a listing has an exact total exactly when, for each path listed without a negative size, the listed sizes add up to the first size as often as the path is listed |
| Plan.TwoSizesExceed | internal/downloader/plan_build.go:102-118 | a path listed with sizes 1 and 2 is such a listing |
| Plan.WithoutPresentFiles | internal/downloader/present_files.go:10-29 | takes out exactly the present files and keeps the total exact; fails exactly when presence cannot be found out for some file |

## Left out

- Store, disk and network failures are parameters or events of their own where the code has a branch for them; the wording of errors is not modelled.
- The steps of a run allow any number of file workers at once; the bound is that of `WorkerPool`.
- Integers do not wrap at 64 bits, and floating-point rounding is left out of averages, rates and sums.
- File names are safe and distinct: symbolic links, path cleaning and the naming rules of Windows are left out, as are directory syncs.
- Logging, progress timing, access tokens, event subscribers and publishing do not affect the states modelled.
- Subscriptions to captures are known by numbers instead of references; live watchers of the output are left out.
- Hashes have no colon where a route key is read back (`Identity.Hashed`); what a colon in a model hash does to an identity is `Identity.IdentityInjective`.
- The parsing of query strings, event normalization, timelines of the query side, cost and token queries and the recent-event list are left out; events are taken as normalized, with rates and memory readings that are not negative.
- Rollups.EventStore.QuerySummary: is a query that nothing comes between; one with writes and prunes between choice and read is `ChooseTable` and `ReadSummary`.
- Section, model and node lists of a query are not modelled as lists; each of their lines is a summary with the line's labels as filter, which the theorems about summaries cover.
- Averages of load time in section lists do not exist in the code and are zero in the merge model.
- The order of merged lines with equal sort keys is unspecified, as it is in the code.
- Invalid UTF-8 in member names, which the JSON library replaces while decoding, and malformed JSON are left out; a value is a syntax tree with every choice of white space and escapes.
- The words of a precedence setting are read by a parameter, as JSON strings are.
- When generation defaults are injected is a parameter of the policy.
- Which enabled models a selection other than text takes to serve a name is a parameter (`Registry.Service`), as are public image IDs and served-name aliases; choices of one given embedding or voice model, and those of the web interface, whose counters have names of their own, are left out. One record is kept for each node and local ID.
- The normal form of a URL is a parameter, as is whether it has one.
- A handler's error is ignored by the queue and by the model; after `close` pending artifacts stay pending.
- Which files a selection depends on, by name, is a parameter of the plan; so are the checks of names and paths, the folding of letter case and the destination directory.
- HTTP clients, repository search, process control, hardware probing, the web interface and commands are foreign calls without an invariant of their own.
