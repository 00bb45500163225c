# Verification model of the material pipeline and its stateful services

This Dafny project models the parts of the exam-review backend whose correctness depends on
the order of events or on exact arithmetic over positions, and proves properties of them.

* **The material lifecycle.** `Tables` holds the rows, `Jobs` and `Materials` say what each
  transaction does to them, and `Lifecycle` lets any number of uploads, workers, API calls,
  recoveries and account or course deletions interleave, one transaction or external effect
  at a time, with a crash possible between any two. `Histories` states the lease, cancel,
  attempt, budget and queue rules over the order of events; `RowInvariants`, `MaterialRows`
  and `Leases` prove that every run obeys them, and `Fencing` draws the consequences.
  `Objects` proves that no stored object loses its row, `Availability` when an available row
  has its object, `Erasure` that deletion leaves no object, and `Quotas` that no interleaving
  gets past a limit. `ExampleRuns` gives a run that ends READY and the runs in which the
  attempt fence and the object of an available row are lost.
  `Database`, `JobService`, `MaterialService` and `StorageRecovery` are the same transactions
  as methods that update the tables step by step. Each says what it leaves on the tables,
  keeps rows that are in order so (`Preserves`), and is proved equal to its transaction.
* **Text ranges.** `Texts`, `Paragraphs`, `PdfDocument`, `PdfParser` and `Chunking` follow a
  PDF from page texts to overlap windows with exact document offsets.
* **Versioned deletion.** `VersionListing` and `VersionedDelete`: paged listings of one key
  and the delete loop built on them.
* **Retrieval.** `Ranking` and `Fusion`: reciprocal-rank fusion and the rerank stage.
* **Sessions, limiter, courses, batches.** `Sessions` (refresh-token rotation and invites),
  `RateLimiter` (sliding windows), `Courses` (one default per user) and `Batches` (putting a
  provider's rows back in order).

How the lifecycle is read:

* Times are integers and every step carries its own clock readings, so nothing is assumed of
  clocks except where a lemma says so. Lease ids are fresh numbers.
* A transaction that holds the user row for the length of an external call (an upload's PUT,
  the second half of a course deletion, an account deletion) keeps it in `World.locks`; other
  calls of that user wait.
* The guard `WriteSettled` is the one assumption about the object store: nobody deletes a key
  while a write to it may still land.
* `Job.series` counts the retries of a job. The database has no such column: it is there to
  say where the attempt fence holds. `OldSeriesIsNotFenced` shows that it does not hold
  across a retry, and `MarkTakesEffectIff` says exactly when a final mark takes effect.
* The limiter's description in `backend/app/core/middleware.py` lists three limits; the code
  has five, and the model follows the code.
* An AVAILABLE row can lack its object: a course or account deletion removes objects before its
  transaction commits, and the rows keep their status when that transaction fails.
  `AvailableHasObjectIff` says that this is the only way, and `AvailableWithoutObject` shows it.
* An older failed job that is retried can be active beside a newer one, a material can leave
  READY, and READY does not imply chunk rows: the code keeps none of these in every
  interleaving, and none is claimed.

## Model

| member | source | states |
|---|---|---|
| Leases.EveryRunIsSound | backend/app/api/materials.py:502-737 | In every run, from any users and in every interleaving, each event was allowed when it happened: a material is made READY only with the lease last written on its row, once per lease, and for a job that had not been cancelled; a lease id is written once; a claim takes a waiting job, with a number above all earlier ones of its series and within the claim budget; a job finishes only if its material was READY before. |
| Leases.NextKeeps | backend/app/tasks/parse_material.py:38-140 | One step of any actor keeps the row and attempt invariants and is legal: jobs only move forward, only new lease ids are put on rows, and only the READY update of the lease holder makes a material READY or uses a lease up. |
| Histories.ReadiedByLeaseHolder | backend/app/api/materials.py:826-853 | At any point of a sound history where a material became READY, the lease used was the last one written there, had not made anything READY before, and its job had not been cancelled. |
| Histories.ClaimsTakePlaces | backend/app/services/job_service.py:577-613 | Over any stretch of a sound history a job is claimed no more often than it was queued or retried in it, and once more only if it was already waiting: between two claims it was queued again, however many wakeups arrive. |
| Fencing.ReadyOnlyByLeaseHolder | backend/app/api/materials.py:826-853 | In every reachable state, a step that makes a material READY is the READY update of the attempt whose lease is on the row, on an available object, and that lease has made nothing READY yet. |
| Fencing.LostLeaseNeverReadies | backend/app/api/materials.py:788-853 | Once a lease has been overwritten or cleared, no later run lets its attempt make the material READY. |
| Fencing.CancelledNeverReadies | backend/app/services/job_service.py:436-465 | If an attempt's job is cancelled before its READY update, the attempt never makes the material READY, even when it had not written its lease yet. |
| Fencing.ClosedForever | backend/app/services/job_service.py:359-368 | Succeeded and cancelled jobs are never changed again, over any run. |
| Fencing.FailedUntilRetried | backend/app/services/job_service.py:346-395 | A job that failed for good, and is not waiting for cleanup, changes only when a retry of it is recorded. |
| Fencing.SucceededWasReady | backend/app/services/job_service.py:758-769 | Every reachable SUCCEEDED job belongs to a material that was READY at some earlier point of the run. |
| Fencing.QueuedJobsHaveBudget | backend/app/services/job_service.py:584-602 | Every reachable QUEUED job has attempts left, so a claim never takes the branch that gives an exhausted job up. |
| Fencing.ClaimsAreBudgeted | backend/app/services/job_service.py:388-392 | Claims of one job number at most max_attempts times one plus its retries, whatever recovery and crashes do. |
| Histories.ClaimBudget | backend/app/services/job_service.py:584-608 | The claim budget as a fact about every sound history. |
| Fencing.ClaimsAreNumberedUpwards | backend/app/services/job_service.py:606-614 | Within one retry series a later claim has a strictly greater attempt number than every earlier one. |
| Fencing.EpisodesAreClaimedOnce | backend/app/services/job_service.py:577-613 | In every reachable state a job has been claimed at most once for each time it was queued or retried, and so it is over every stretch of the run that starts with the job not waiting. |
| Fencing.EarlierAttemptIsFenced | backend/app/services/job_service.py:546-562 | Once a later attempt of the same series exists, a progress report, lease write or final mark of an earlier attempt leaves every row as it was. |
| Fencing.MarkTakesEffectIff | backend/app/services/job_service.py:646-695 | A success, cancel or failure call changes the rows exactly when the job is running and carries the caller's attempt number. |
| Fencing.ReportTakesEffectIff | backend/app/services/job_service.py:537-562 | A progress report changes the rows exactly when it comes from the current attempt and differs from what is written. |
| Fencing.LeaseTakesEffectIff | backend/app/api/materials.py:526-541 | A lease is written exactly when the current attempt writes it on a material row that is there. |
| ExampleRuns.OldSeriesIsNotFenced | backend/app/services/job_service.py:388-392 | The attempt fence stops at a retry: a concrete run in which an attempt of the first series takes a running job away from an attempt of the second. |
| ExampleRuns.ReachesReady | backend/app/api/materials.py:502-737 | A concrete run of one upload and one attempt that makes its material READY and its job succeed. |
| Jobs.BackoffDoubles | backend/app/services/job_service.py:387-387 | The retry delay is at least a second, doubles with each attempt and is capped at an hour. |
| Objects.NoOrphanObject | backend/app/api/materials.py:113-174 | In every reachable state, with a crash possible between any two commits, an object is named by a material row that carries its key and is not a tombstone. |
| Objects.NextKeepsObjects | backend/app/api/materials.py:394-475 | One step of any actor keeps the storage invariant: objects and pending writes are recorded, an upload that writes holds the user row and a reserved material, and a cleaner's row is already hidden. |
| Objects.FinishCleaningKeeps | backend/app/services/material_storage_cleanup.py:276-321 | Settling a deletion row after its object is gone keeps the storage invariant, for owners, recovery and upload compensation alike. |
| Objects.CommitAccountKeeps | backend/app/services/account_deletion_service.py:85-109 | Deleting an account's rows is safe once every object of the account has been removed under the user lock. |
| Objects.CommitCourseKeeps | backend/app/services/course_service.py:191-211 | Deleting a course's material rows is safe once every object of the course has been removed under the user lock. |
| Quotas.StorageOnlyMovesForward | backend/app/api/materials.py:1118-1171 | No step moves a material's storage status back along reserved, available, deleting, deleted. |
| Quotas.StorageForwardOverRuns | backend/app/services/material_storage_cleanup.py:276-321 | Over a whole run a surviving material row keeps its key and has only moved forward, and no deleted row comes back. |
| Quotas.QuotaHolds | backend/app/services/quota_service.py:40-86 | In every reachable state the number of each user's non-deleted materials and the sum of their sizes are within the user's limits, and no two live materials of a course share a content hash. |
| Quotas.UsageIsSum | backend/app/services/quota_service.py:70-86 | What the quota check counts is the number of the user's rows that are not tombstones, and the sum of their sizes, each row once. |
| Quotas.UsageChanges | backend/app/services/quota_service.py:40-86 | Rewriting one row changes the usage of every user by exactly what the row counts after less what it counted before. |
| Quotas.ReserveKeepsQuota | backend/app/api/materials.py:307-330 | Reserving a slot keeps every user within the limits. |
| Quotas.CommitKeepsQuota | backend/app/api/materials.py:361-394 | Committing the real size and hash before the object is written keeps the limits and the absence of duplicates. |
| Erasure.TombstoneHasNoObject | backend/app/api/materials.py:1154-1171 | In every reachable state nothing is stored, or about to be, under the key of a tombstone. |
| Availability.AvailableHasObjectIff | backend/app/services/account_deletion_service.py:80-104 | In every reachable state an AVAILABLE material has its object exactly when no course or account deletion removed it, under the user lock, while the row was AVAILABLE. |
| Availability.NextServes | backend/app/api/materials.py:417-497 | One step of any actor publishes only materials whose object is stored, and takes the object of an AVAILABLE row only by a deletion under the user lock. |
| ExampleRuns.AvailableWithoutObject | backend/app/services/account_deletion_service.py:395-411 | A concrete run in which an account deletion removes an object and then fails, leaving its row AVAILABLE without it. |
| Erasure.AccountLeavesNothing | backend/app/services/account_deletion_service.py:413-421 | Once an account's deletion commits, no object of the user is stored or in flight in that or any later state. |
| Erasure.CourseLeavesNothing | backend/app/services/course_service.py:191-211 | When a course deletion commits, no object of the course is stored or in flight, and no later state has an object under any key the course had by then. |
| JobService.CreateMaterialJob | backend/app/services/job_service.py:204-277 | The call succeeds exactly for an active user's available material, which then has an active job; a new job, queued and due at once as attempt one, is added only if it had none, no other row changes, and the row invariants hold on. |
| JobService.FindNewestJob | backend/app/services/job_service.py:230-242 | The job returned passes the filter and no job that does has a greater id; none is returned only if there is none. |
| JobService.ClaimJob | backend/app/services/job_service.py:564-614 | On rows in order a claim succeeds exactly for a due queued job of an active user, with the next attempt number, and changes that job only; the number is current for the other calls, no second claim succeeds, and the row invariants hold on. |
| JobService.IsCancelled | backend/app/services/job_service.py:616-636 | An attempt is cancelled exactly when reporting its success would change nothing. |
| JobService.UpdateProgress | backend/app/services/job_service.py:537-562 | A report of the current attempt leaves a percentage in 0..100 on that job only and keeps the attempt current; any other changes nothing; the row invariants hold on. |
| JobService.MarkSucceeded | backend/app/services/job_service.py:638-667 | The current attempt's success closes the job to every attempt and changes that job only; any other call changes nothing; the row invariants hold on when the material was READY. |
| JobService.MarkCancelled | backend/app/services/job_service.py:669-721 | The current attempt's cancellation fences every attempt of the job and leaves its material without a lease, failed if it was pending or being processed; no other row changes and the row invariants hold on. |
| JobService.CancelMaterialJob | backend/app/services/job_service.py:414-465 | On rows in order the request cancels exactly the job with the greatest id, and only while that job is active; the row invariants hold on. |
| JobService.CancelJobsForMaterial | backend/app/services/job_service.py:467-513 | Every active job of the material is cancelled and counted, none is left active, and the row invariants hold on. |
| JobService.RetryJob | backend/app/services/job_service.py:346-412 | Exactly a failed job of an active user's available material starts again: no attempts used, due after the backoff for those it had, its material pending without lease and chunk rows; a claim gets attempt one from then on and not before; the row invariants hold on. |
| JobService.MarkFailed | backend/app/services/job_service.py:723-862 | A failure of the current attempt, from start to end: a READY material makes the job SUCCEEDED; otherwise it is queued after its backoff with its material pending while attempts are left, fails with its material if not, and waits for cleanup when chunk rows could not go; any other call changes nothing and the row invariants hold on. |
| JobService.FinishCleanupRecovery | backend/app/services/job_service.py:100-188 | A job waiting for cleanup succeeds if its material is READY, is queued with its material pending if attempts are left, and fails with its material otherwise, each with the exact rows; any other job is untouched and the row invariants hold on. |
| JobService.RecoverOneJob | backend/app/services/job_service.py:937-1072 | Exactly the due, stale and uncleaned jobs are recovered: a READY material makes the job SUCCEEDED and loses only its lease, one that is not READY puts the job back in the queue, due at once, while attempts are left and a needed cleanup worked, and otherwise job and material fail; no other row changes, and the row invariants hold on. |
| JobService.RecoverJobs | backend/app/services/job_service.py:864-935 | The recovery scan of one owner is the recovery of its candidates one after the other, with the count it returns, and keeps the row invariants. |
| JobService.ScanResolvesEveryCandidate | backend/app/services/job_service.py:929-935 | With nobody else at work and a clock that does not go back, the scan counts every candidate and leaves none running or waiting for a cleanup that worked, in any order. |
| JobService.FailureCleansUp | backend/app/services/job_service.py:771-819 | A failed attempt that left chunk rows ends like one that left none: same job status, attempt count, backoff and materials. |
| JobService.RecoveryCleansUp | backend/app/services/job_service.py:1006-1041 | Recovering a running job with leftover chunk rows gives the rows that recovering it without them gives. |
| MaterialService.ReserveUpload | backend/app/api/materials.py:307-330 | A slot is reserved exactly when the user is active and below the file limit, as one new reserved row of size zero under a new key; no other row changes, and the quota and row invariants hold on. |
| MaterialService.CountFiles | backend/app/services/quota_service.py:70-86 | The files counted are the user's rows that are not tombstones, each once. |
| MaterialService.SumSizes | backend/app/services/quota_service.py:70-86 | The bytes counted are the sum of the sizes of the user's rows that are not tombstones. |
| MaterialService.CommitUpload | backend/app/api/materials.py:361-394 | Size and hash are written exactly when the row is visible, the sum of the user's counted sizes and the new one fits and no other live material of the course has the content; afterwards the bytes used are those before, less the old size, plus the new one; no other row changed, and the quota and row invariants hold on. |
| MaterialService.Publish | backend/app/api/materials.py:417-497 | Exactly a row of an active user is made available, together with an active job or not at all. |
| MaterialService.DiscardReservation | backend/app/api/materials.py:102-174 | Only a reservation changes: it goes with its jobs and nothing else, or stays hidden under its key when its object may still exist; storage only moves forward and the row invariants hold on. |
| MaterialService.MarkForCompensation | backend/app/api/materials.py:177-203 | Exactly a live row of an active user is hidden, and still counts against the quota until its object is gone; no other row changes and the row invariants hold on. |
| MaterialService.TakeLease | backend/app/api/materials.py:526-541 | The lease is written exactly by the current attempt; then no other lease is on the row, and the attempt owns an available row exactly until the lease runs out; a fresh lease keeps the row invariants. |
| MaterialService.ReloadOwnedAttempt | backend/app/api/materials.py:788-823 | Owning the row is holding the lease that the READY update asks for, alive and with unchanged chunk rows; no other lease owns it then, and recovery leaves it alone. |
| MaterialService.MarkProcessingAttemptReady | backend/app/api/materials.py:826-853 | The READY update succeeds exactly under the attempt's lease and uses it up: no lease is left on the row, no other row changes, and the row invariants hold on when the job was not cancelled. |
| MaterialService.FailIndexingIntent | backend/app/api/materials.py:856-908 | Exactly the lease holder records uncertain index writes: no lease is left, and a row with chunk rows can be recovered at any time from then on; the row invariants hold on. |
| MaterialService.BeginDelete | backend/app/api/materials.py:1092-1137 | A delete refuses, and rolls its cancellations back, exactly for a reservation, an uncertain write or a live attempt; otherwise it cancels every active job and hides the row without a lease; the row invariants hold on. |
| MaterialService.FinishDelete | backend/app/api/materials.py:1154-1171 | Exactly a row still deleting becomes a tombstone, which counts no more; no other row changes, storage only moves forward and the row invariants hold on. |
| MaterialService.BeginReprocess | backend/app/api/materials.py:1179-1233 | Reprocessing refuses and undoes its cancellations, queues a row without chunk rows at once, or hands the row a recoverable lease before its chunk rows go, with the exact rows in each case; a fresh lease keeps the row invariants. |
| MaterialService.FinishReprocess | backend/app/api/materials.py:1234-1270 | Exactly under the lease taken before, the row is reset and gets its next job in one transaction. |
| MaterialService.RecoverMaterial | backend/app/services/material_storage_cleanup.py:134-170 | A stale row is reset with its chunk rows gone if available, and otherwise hidden with its object next to go; any other row stays, storage only moves forward and the row invariants hold on. |
| MaterialService.FinishRecovery | backend/app/services/material_storage_cleanup.py:299-320 | Afterwards the row needs no recovery, and one that did is a tombstone; no other row changes, storage only moves forward and the row invariants hold on. |
| MaterialService.MarkCourse | backend/app/services/course_service.py:157-189 | A course is marked exactly if the user is active and none of its materials is reserved, uncertain or being processed, and then all that are not tombstones are hidden without a lease; the row invariants hold on. |
| MaterialService.FenceAccount | backend/app/services/account_deletion_service.py:265-295 | Every active job of the user is cancelled and every material in processing fails without a lease, and no other row changes; the row invariants hold on. |
| MaterialService.RemoveAccount | backend/app/services/account_deletion_service.py:413-421 | Every row of the user goes with the user row, materials and jobs alike, and no row of anybody else; the row invariants hold on. |
| StorageRecovery.RecoverStale | backend/app/services/material_storage_cleanup.py:243-328 | The pass settles its candidates one after the other and keeps the row invariants; its counters are exactly the candidates whose object went, that became tombstones, and that met trouble, as they stood at the start. |
| StorageRecovery.PassIsComplete | backend/app/services/material_storage_cleanup.py:243-321 | After a pass without trouble no candidate is recoverable any more. |
| StorageRecovery.RecoverOneOutcome | backend/app/services/material_storage_cleanup.py:256-321 | A recovered row is reset without chunk rows if available, and otherwise becomes a tombstone; trouble before the first write leaves it as it was, and trouble after it leaves it hidden. |
| Texts.TrimOfSlice | backend/app/services/parser_service.py:474-479 | Stripping a block by itself finds the offsets that stripping it in place has. |
| Paragraphs.SplitIntoParagraphRanges | backend/app/services/parser_service.py:470-493 | The code, which searches each line again with find, returns exact, ordered paragraphs that cover every visible character and split the page exactly at its blank lines, and at line breaks only in blocks over 500 characters. |
| Paragraphs.FindHitsLine | backend/app/services/parser_service.py:489-489 | find never fails and always hits the line's true position. |
| Paragraphs.Lossless | backend/app/services/parser_service.py:470-493 | Every triple is the text between its offsets, ranges are not empty, ordered and disjoint, and every visible character is in one of them. |
| Paragraphs.RangesTile | backend/app/services/parser_service.py:470-493 | Ranges start and end with a visible character and skip only whitespace. |
| Paragraphs.ParagraphsAreNotMerged | backend/app/services/parser_service.py:474-493 | No paragraph contains a blank-line separator, and none over 500 characters contains a line break. |
| Paragraphs.SeparatesIff | backend/app/services/parser_service.py:474-474 | The separator pattern matches exactly where a newline, only whitespace and another newline follow. |
| Paragraphs.ParagraphsAreNotSplit | backend/app/services/parser_service.py:470-493 | Two visible characters of one block lie in one paragraph exactly when the block has at most 500 characters or no line break lies between them. |
| PdfParser.ParsePdf | backend/app/services/parser_service.py:121-166 | The chunks are the paragraphs of the pages in document coordinates, numbered from zero, each with its length, the number of the page its offsets lie in and the nearest heading up to it. |
| PdfDocument.AppendPage | backend/app/services/parser_service.py:138-165 | One page appends its paragraphs as chunks, each with its own heading or the last one seen. |
| PdfDocument.NearestHeading | backend/app/services/parser_service.py:141-144 | A chunk's section is the nearest heading at or before it, and it has none only if there is no such heading. |
| PdfParser.BlankPage | backend/app/services/parser_service.py:134-136 | Skipping a blank page skips no paragraph. |
| PdfParser.CleanDropsNuls | backend/app/services/parser_service.py:131-132 | Cleaning a page drops its NUL characters and nothing else, and keeps the order. |
| PdfParser.HeadingIff | backend/app/services/parser_service.py:496-505 | A text opens a section exactly when its first line starts with the ordinal mark and has the chapter or section mark at least two characters on; a chapter mark decides the level. |
| PdfDocument.PageInDocument | backend/app/services/parser_service.py:166-166 | The running offset is where the page starts in the page texts joined by one separator. |
| PdfParser.ParsedPdfIsExact | backend/app/services/parser_service.py:121-166 | Every chunk is the text between its offsets in the joined page texts; with a blank separator every visible character is in exactly one chunk, and chunks follow one another. |
| PdfParser.ParsedPdfSaysWhere | backend/app/services/parser_service.py:138-165 | Every chunk says its number, its length, the page its offsets lie in, and the nearest heading among the chunks up to it. |
| Chunking.MakeConfig | backend/app/services/chunking_service.py:11-17 | A configuration exists exactly for a positive size and an overlap from zero to below the size. |
| Chunking.SplitWithOverlap | backend/app/services/chunking_service.py:60-97 | The loop returns the windows with their offsets and numbers. |
| Chunking.WindowAt | backend/app/services/chunking_service.py:62-95 | Window k starts k steps into the text, is cut at its end, and is the last one exactly when it reaches it. |
| Chunking.WindowCount | backend/app/services/chunking_service.py:62-95 | A long text is cut into exactly 1 + ceil((n - size) / (size - overlap)) windows. |
| Chunking.WindowsOverlap | backend/app/services/chunking_service.py:62-95 | Each later window repeats exactly the overlap and adds at least one character. |
| Chunking.WindowsReassemble | backend/app/services/chunking_service.py:60-97 | The first window followed by each later one without its overlap is the text. |
| Chunking.Normalize | backend/app/services/chunking_service.py:19-58 | Normalising a list puts the pieces of each chunk in its place, with consecutive numbers, and nothing else. |
| Chunking.NormalizeNumbers | backend/app/services/chunking_service.py:55-58 | Normalised chunks are numbered from zero, no longer than a window, with offsets that match their text. |
| Chunking.NormalizeMakesPieces | backend/app/services/chunking_service.py:22-97 | Each chunk is replaced by its pieces: itself if short, and otherwise window after window, with the page, section and parent of the chunk, its place in the text and the window number. |
| Chunking.NormalizeIsIdempotent | backend/app/services/chunking_service.py:19-58 | Normalising again changes no text and no range. |
| Chunking.NormalizeKeepsOrder | backend/app/services/chunking_service.py:22-53 | Chunks in sequence are normalised in order. |
| Chunking.NormalizeCovers | backend/app/services/chunking_service.py:22-53 | Normalising drops no character. |
| Chunking.NormalizedPdfIsExact | backend/app/services/chunking_service.py:22-37 | From pages to normalised chunks every chunk is the text between its offsets in the joined page texts, windows of long paragraphs included, and no visible character is lost. |
| Chunking.ParseAndNormalize | backend/app/api/materials.py:543-570 | The worker's parse and normalise calls together give exact, ordered, numbered chunks that cover the document. |
| VersionListing.ExactVersionIds | backend/app/services/object_storage.py:275-311 | The marker loop ends for every server whose markers come from a finite set, after at most one request more than there are markers. |
| VersionListing.OnlyListedIds | backend/app/services/object_storage.py:281-285 | Whatever the server answers, each id returned was listed under exactly this key. |
| VersionListing.ListsExactly | backend/app/services/object_storage.py:275-311 | Against a server that pages honestly the listing returns exactly the versions and delete markers of that key and none of longer keys, each once. |
| VersionedDelete.Order | backend/app/services/object_storage.py:319-322 | Listed ids are deleted once each, the requested version first. |
| VersionedDelete.Delete | backend/app/services/object_storage.py:313-337 | The call returns normally only after a full listing was empty; nothing leaves the bucket but versions of the key that the store removed; a refused version is still there and ends the call, keeping everything if it is the requested one; it gives up after three rounds and needs at most two listings when nobody else writes the key. |
| Fusion.Fuse | backend/app/services/retrieval_service.py:635-652 | With distinct ids in each leg the result is the top_k highest of both legs combined: the ids the dense leg kept and then the new ones of the lexical leg, with the sum of their reciprocal ranks, in descending order, ties in that order. |
| Fusion.FusedScores | backend/app/services/retrieval_service.py:635-651 | With distinct ids in each leg every id that passes the filter appears once, with the sum of 1 / (k + rank) over the legs that kept it and the row of the dense leg, or of the lexical leg if only that kept it. |
| Fusion.LegsCommute | backend/app/services/retrieval_service.py:635-651 | Swapping the legs changes no score. |
| Fusion.DominanceHolds | backend/app/services/retrieval_service.py:635-652 | A candidate strictly better in one leg and no worse in the other precedes the other in the result and is not dropped in its favour. |
| Ranking.BestAreTaken | backend/app/services/retrieval_service.py:652-652 | The result is in descending order and nothing left out scores more than anything taken. |
| Ranking.SortIsStable | backend/app/services/retrieval_service.py:652-652 | Candidates that tie keep the order they came in. |
| Fusion.SecondSortIsHarmless | backend/app/services/retrieval_service.py:797-811 | Sorting and cutting the fused candidates again before the rerank leaves their order as it is. |
| Fusion.Rerank | backend/app/services/retrieval_service.py:810-856 | The answer is an error exactly for a wrong or non-finite score; otherwise the evidences are different candidates, the highest-scoring ones that pass the gate, at most top_k, in descending order with ties in candidate order, and the status says exactly whether there were candidates, whether any passed and whether top_k did. |
| Fusion.EvidencesAreDifferent | backend/app/services/retrieval_service.py:842-854 | No candidate is returned more often than it was offered, and those that tie stay in candidate order. |
| Fusion.EvidencesAreBest | backend/app/services/retrieval_service.py:842-854 | Evidences pass the gate in descending order, and a passing candidate left out scores no more than any of them. |
| Fusion.GateFailsIff | backend/app/services/retrieval_service.py:842-847 | The quality gate fails a search exactly when no candidate reaches the threshold. |
| Sessions.AtMostOneRow | backend/app/services/auth_service.py:318-329 | After any calls the lookup of access validation finds at most one row. |
| Sessions.StepKeeps | backend/app/services/auth_service.py:248-293 | No call gives a session two unrevoked tokens, two accounts one username, or an invite more uses than allowed. |
| Sessions.RotationHandsOver | backend/app/services/auth_service.py:280-292 | A successful rotation leaves the session exactly the new token, live for the full refresh lifetime and no longer, records the replacement and touches no other token. |
| Sessions.ReplayEndsSession | backend/app/services/auth_service.py:264-268 | Replaying a replaced token, however much later, is refused and leaves its session without an unrevoked token for ever. |
| Sessions.LogoutEndsSession | backend/app/services/auth_service.py:295-307 | A logout leaves its session without an unrevoked token for ever. |
| Sessions.DisablingEndsSessions | backend/app/services/auth_service.py:362-374 | Disabling an account ends every session it had for ever, even if it is enabled again. |
| Sessions.InviteIsBudgeted | backend/app/services/auth_service.py:183-213 | However many try, an invite registers at most max_uses accounts. |
| Sessions.AuthService.RotateRefreshToken | backend/app/services/auth_service.py:248-293 | Exactly a live token of an enabled account with its CSRF value is rotated, leaving the new token as the one active row for the full refresh lifetime from now and none after; a known token otherwise loses its session, unless only the CSRF value was wrong; other sessions are untouched and the store stays in order. |
| Sessions.AuthService.DoRegister | backend/app/services/auth_service.py:169-220 | Registration succeeds exactly with an available invite and a free username; then the account is there with the given name and no privileges, a login succeeds exactly with the registered password, one use is spent, and one session with one token is active for its lifetime; otherwise nothing changes. |
| Sessions.AuthService.DoLogin | backend/app/services/auth_service.py:222-246 | A login succeeds exactly for an enabled account and its password, and opens one session with one token, active for its lifetime; no other token changes. |
| Sessions.AuthService.DoLogout | backend/app/services/auth_service.py:295-307 | A logout succeeds exactly with an unrevoked token and its CSRF value; its session is dead then and other sessions are untouched. |
| Sessions.AuthService.UpdateUser | backend/app/services/auth_service.py:341-377 | Exactly an enabled administrator changes an existing account; disabling leaves it no active row in any session, enabling revives none, and tokens of other accounts are untouched. |
| Sessions.AuthService.ValidateAccessToken | backend/app/services/auth_service.py:309-330 | Validation succeeds exactly for an enabled account with an active row, which is the only one. |
| RateLimiter.KeysAreDistinct | backend/app/core/middleware.py:153-153 | Requests share a bucket only if address, path and verb agree. |
| RateLimiter.WindowHolds | backend/app/core/middleware.py:154-175 | An accept history built by the rule holds at most the limit in every window (T - 60, T]. |
| RateLimiter.PruningIsHarmless | backend/app/core/middleware.py:157-157 | Pruning earlier does not change what is recent later. |
| RateLimiter.Limiter.Dispatch | backend/app/core/middleware.py:137-176 | A request is accepted exactly when its pruned list has room; while clocks do not go back and requests are well formed that is when the window that ends now holds fewer than its limit of all accepts so far; no other bucket changes. |
| RateLimiter.Limiter.AtMostLimit | backend/app/core/middleware.py:142-175 | For every request kind and every T at most its limit was accepted in (T - 60, T]. |
| Courses.DefaultIsResolved | backend/app/services/course_service.py:322-350 | After any calls a user with a course has exactly one default, distinct names, and resolving no id returns that default. |
| Courses.ResolveAlwaysFinds | backend/app/services/course_service.py:326-350 | Resolving no id never fails: a user without courses gets a first, default one. |
| Courses.EarliestTakesOver | backend/app/services/course_service.py:289-301 | Giving up or deleting the default hands it to the earliest other course by creation time and id. |
| Courses.StepKeeps | backend/app/services/course_service.py:60-155 | Every call keeps one default per user with courses and distinct names. |
| Courses.CourseService.CreateCourse | backend/app/services/course_service.py:60-92 | A course is created exactly if the name is free, and is the default exactly if it is the first; no other course changes and the catalog stays in order. |
| Courses.CourseService.UpdateCourse | backend/app/services/course_service.py:94-155 | An update takes exactly a free name, sets the default as asked, hands a default given up to the next course in line by age, and changes no course of another user; the catalog stays in order. |
| Courses.CourseService.DeleteCourse | backend/app/services/course_service.py:289-301 | Exactly an owned course goes; the next course in line takes over a deleted default, a user with courses left has a default, and nothing else changes. |
| Courses.CourseService.ResolveCourse | backend/app/services/course_service.py:322-350 | An id resolves exactly to the owned course; no id always resolves to a default course of the user, and changes nothing if the user has courses. |
| Batches.EverySlotIsNamed | backend/app/benchmarks/siliconflow_provider.py:92-105 | As many rows as slots, in range and without repetition, name every slot, so the last incomplete check cannot fire. |
| Batches.FillSlots | backend/app/benchmarks/siliconflow_provider.py:92-105 | Rows are accepted exactly when all are valid and their indexes differ, slot i holds what the row that named i carries, and otherwise the first bad row decides the error. |
| Batches.OrderDoesNotMatter | backend/app/benchmarks/siliconflow_provider.py:92-105 | The same rows in another order are accepted too and give the same output. |
| Batches.ValidatedNumbers | backend/app/benchmarks/siliconflow_provider.py:172-181 | Numbers are accepted exactly when all are finite numbers. |
| Batches.EmbedDocuments | backend/app/benchmarks/siliconflow_provider.py:79-109 | Embedding succeeds exactly for a complete, valid answer of one dimension, in request order. |
| Batches.Score | backend/app/benchmarks/siliconflow_provider.py:135-163 | Scoring succeeds exactly for a complete, valid answer, in request order. |

## Left out

- Fencing.EarlierAttemptIsFenced: holds within one retry series only, because a retry resets the attempt counter that the fence compares.
- Objects.NoOrphanObject: assumes that a write to the object store has settled before its key is deleted.
- Quotas.QuotaHolds: limits are fixed during a run; an administrator lowering a limit below the current use is not modelled.
- RateLimiter.Limiter.Dispatch: promises the limit over the whole history only while the clock has not gone back and every request had an address without a slash, a path that starts with one and a verb without a colon; without that it still says what happens to each list.
- JobService.MarkSucceeded: keeps the row invariants when the material was READY before, which the worker sees before it calls; a caller that never looked could break them.
- MaterialService.TakeLease: keeps the row invariants when the lease id is fresh, as a random id is taken to be.
- MaterialService.BeginReprocess: keeps the row invariants when the lease id is fresh, likewise.
- MaterialService.MarkProcessingAttemptReady: keeps the row invariants when the job of the attempt was not cancelled and no other row has its lease, as in every reachable state (`Leases.AttemptsOk`).
- JobService.ScanResolvesEveryCandidate: is about a scan nobody interferes with; interleaved recoveries are steps of `Lifecycle`.
- StorageRecovery.PassIsComplete: is about a pass nobody interferes with and without errors.
- VersionListing.ListsExactly: assumes that the entries do not change while one listing is being paged.
- Sessions.AuthService.RotateRefreshToken: requires a store in good order, which every call keeps.
- PdfParser.ParsePdf: page texts are arbitrary inputs; extracting them from the file is a library's work, and cleaning all pages first stands for cleaning each page when it is reached.
- Chunking.NormalizeIsIdempotent: the metadata entry that says how a chunk was cut is not modelled; the second pass rewrites it.
- Fusion.Fuse: scores are exact rationals, not floating-point numbers.
- Row locks other than the user row: each transaction is one atomic step even where it locks no row (discarding a reservation, failing an indexing intent, the worker's own FAILED write).
- The filters on creation time and priority that choose recovery candidates: a recovery step may be offered any row or job, and the order of candidates is arbitrary.
- Cleanup and settling steps of recovery are possible at any time, not only after the step that calls for them; the real order is one of the modelled ones.
- Redis: wakeups may be lost, late or repeated, so a claim is possible at any time and nothing else of the queue is modelled.
- Columns nothing branches on: step names, timestamps other than availability, update and lease expiry, priorities, idempotency keys and queue ids.
- The legacy local storage backend, which removes a file where the model removes an object.
- Verification of an uploaded object by a HEAD request: the model only has the removal that follows a failed one.
- Account deletion jobs with their own status and tokens: only their effect on users, jobs, materials and objects is modelled.
- Course rows inside the lifecycle: a course there is an id, and its own rules are in `Courses`.
- Exam dates, study availability and course descriptions: they are written and read without a rule between them.
- Password hashing, JWT encoding and username normalisation: tokens are fresh values, passwords are compared as given, and the refresh lifetime is the configured default.
- Loading candidates, embedding, cross-encoder scores and metadata filtering: their results are arbitrary inputs of fusion and rerank.
- DOCX, PPTX and image parsing: their offsets are synthetic.
- Agents, prompts, provider HTTP, chat streaming, exports, health checks and the frontend: input and output, or settled by reading one branch.
