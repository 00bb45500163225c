/** What every transaction of the job service keeps true of the rows and their history. */
module RowInvariants {
  import opened Options
  import opened Tables
  import opened Histories
  import opened Jobs

  predicate MaterialOk(h: History, m: MaterialId, mat: Material) {
    && mat.key.material == m
    && mat.key.user == mat.owner
    && (mat.lease.Some? ==>
          && mat.processing == Processing
          && LastWrote(h, m) == mat.lease
          && !WasReadied(h, mat.lease.value))
    && (mat.processing == Ready ==> WasReady(h, m))
  }

  predicate JobOk(h: History, j: JobId, job: Job) {
    && job.maxAttempts == MAX_ATTEMPTS
    && job.attemptCount <= MAX_ATTEMPTS
    && (job.status == Queued ==> job.attemptCount < MAX_ATTEMPTS && WaitingForClaim(h, j))
    && (job.status == Succeeded ==> WasReady(h, job.material))
    && (WasCancelled(h, j) ==> job.status == Cancelled)
    && Retries(h, j) == job.series
    && Claims(h, j) <= MAX_ATTEMPTS * job.series + job.attemptCount
    && NumbersUpTo(h, j, job.series, job.attemptCount)
    && SeriesUpTo(h, j, job.series)
  }

  ghost predicate RowsOk(r: Rows, leaseBound: LeaseId) {
    && (forall m | m in r.materials :: m < r.nextMaterial && MaterialOk(r.history, m, r.materials[m]))
    && (forall j | j in r.jobs ::
          && j < r.nextJob
          && OwnsMaterial(r, r.jobs[j].owner, r.jobs[j].material)
          && JobOk(r.history, j, r.jobs[j]))
    && Sound(r.history)
    && Below(r.history, r.nextJob, leaseBound)
  }

  /** Succeeded and cancelled jobs are never touched again. */
  predicate Closed(job: Job) {
    job.status == Succeeded || job.status == Cancelled
  }

  /** Failed for good, as opposed to failed until its chunk rows are cleaned up. */
  predicate FailedForGood(job: Job) {
    job.status == JobFailed && job.error != CleanupPendingCode
  }

  /**
   How a job row may change: a closed job never does, a job that failed for good only by
   a retry, and the attempt counter only grows within a series.
   */
  predicate JobMoves(h: History, later: History, j: JobId, before: Job, after: Job) {
    && after.material == before.material
    && after.owner == before.owner
    && (Closed(before) ==> after == before)
    && (FailedForGood(before) ==> after == before || Retries(later, j) > Retries(h, j))
    && (|| after.series > before.series
        || (after.series == before.series && after.attemptCount >= before.attemptCount))
  }

  /** What any step may do to materials and jobs. */
  ghost predicate Moves(r: Rows, s: Rows) {
    && Extends(r.history, s.history)
    && r.nextMaterial <= s.nextMaterial
    && r.nextJob <= s.nextJob
    && (forall m | m in s.materials && m !in r.materials ::
          r.nextMaterial <= m && s.materials[m].lease.None? && s.materials[m].processing != Ready)
    && (forall j | j in s.jobs ::
          r.nextJob <= j || (j in r.jobs && JobMoves(r.history, s.history, j, r.jobs[j], s.jobs[j])))
    && (forall j | j in r.jobs && r.jobs[j].material in s.materials :: j in s.jobs)
  }

  /**
   A transaction that hands out no lease and makes nothing ready: it only clears leases,
   and clears the lease of a material whose job it cancels.
   */
  ghost predicate Quiet(r: Rows, s: Rows) {
    && Moves(r, s)
    && (forall l :: WasWritten(s.history, l) ==> WasWritten(r.history, l))
    && (forall l :: WasReadied(s.history, l) ==> WasReadied(r.history, l))
    && (forall m | m in s.materials && m in r.materials ::
          && (s.materials[m].lease.None? || s.materials[m].lease == r.materials[m].lease)
          && (s.materials[m].processing == Ready ==> r.materials[m].processing == Ready))
    && (forall j | j in r.jobs && r.jobs[j].material in s.materials ::
          s.jobs[j].status == Cancelled && r.jobs[j].status != Cancelled ==>
            s.materials[r.jobs[j].material].lease.None?)
  }

  /** What every lemma below establishes for one transaction. */
  ghost predicate Keeps(r: Rows, s: Rows, leaseBound: LeaseId) {
    RowsOk(s, leaseBound) && Quiet(r, s)
  }

  /** The same however many lease ids have been handed out. */
  ghost predicate Preserves(r: Rows, s: Rows) {
    forall n | RowsOk(r, n) :: Keeps(r, s, n)
  }

  ghost predicate InOrder(r: Rows) {
    exists n :: RowsOk(r, n)
  }

  /** The notes a job transaction may add: none hands out a lease, all are about `js`. */
  predicate About(note: Note, js: set<JobId>) {
    match note
    case Enqueued(j) => j in js
    case Claimed(j, _, _) => j in js
    case Retried(j) => j in js
    case Finished(j, _) => j in js
    case CancelledJobs(ks) => ks <= js
    case _ => false
  }

  predicate OnlyAbout(h: History, later: History, js: set<JobId>) {
    h == later || (later.Then? && About(later.latest, js) && OnlyAbout(h, later.past, js))
  }

  lemma {:induction later} OtherJob(h: History, later: History, js: set<JobId>, j: JobId, job: Job)
    requires OnlyAbout(h, later, js) && j !in js && JobOk(h, j, job)
    ensures JobOk(later, j, job)
  {
  }

  lemma {:induction later} SameMaterial(h: History, later: History, js: set<JobId>, m: MaterialId, mat: Material)
    requires OnlyAbout(h, later, js) && MaterialOk(h, m, mat)
    ensures MaterialOk(later, m, mat)
  {
  }

  lemma {:induction later} NoLeaseWritten(h: History, later: History, js: set<JobId>)
    requires OnlyAbout(h, later, js)
    ensures Extends(h, later)
    ensures forall l :: WasWritten(later, l) ==> WasWritten(h, l)
    ensures forall l :: WasReadied(later, l) ==> WasReadied(h, l)
  {
  }

  /** A material row rewritten without a new lease and without becoming ready. */
  predicate MaterialMoves(h: History, m: MaterialId, before: Material, after: Material) {
    && MaterialOk(h, m, after)
    && after.owner == before.owner
    && (after.lease.None? || after.lease == before.lease)
    && (after.processing == Ready ==> before.processing == Ready)
  }

  /** A transaction that rewrites the jobs `js` and materials `ms` only has those to answer for. */
  lemma PatchOk(r: Rows, s: Rows, js: set<JobId>, ms: set<MaterialId>, n: LeaseId)
    requires RowsOk(r, n)
    requires OnlyAbout(r.history, s.history, js) && Sound(s.history) && Below(s.history, s.nextJob, n)
    requires s.nextMaterial == r.nextMaterial && s.nextJob == r.nextJob
    requires s.materials.Keys == r.materials.Keys && s.jobs.Keys == r.jobs.Keys
    requires forall m | m in r.materials :: m in ms || s.materials[m] == r.materials[m]
    requires forall j | j in r.jobs :: j in js || s.jobs[j] == r.jobs[j]
    requires forall m | m in ms && m in r.materials ::
               MaterialMoves(s.history, m, r.materials[m], s.materials[m])
    requires forall j | j in js && j in r.jobs ::
               && JobOk(s.history, j, s.jobs[j])
               && JobMoves(r.history, s.history, j, r.jobs[j], s.jobs[j])
               && (s.jobs[j].status == Cancelled && r.jobs[j].status != Cancelled ==>
                     s.materials[s.jobs[j].material].lease.None?)
    ensures Keeps(r, s, n)
  {
    NoLeaseWritten(r.history, s.history, js);
    forall m | m in s.materials ensures MaterialOk(s.history, m, s.materials[m]) {
      if m !in ms {
        SameMaterial(r.history, s.history, js, m, r.materials[m]);
      }
    }
    forall j | j in s.jobs
      ensures OwnsMaterial(s, s.jobs[j].owner, s.jobs[j].material) && JobOk(s.history, j, s.jobs[j])
    {
      assert OwnsMaterial(r, r.jobs[j].owner, r.jobs[j].material);
      if j !in js {
        OtherJob(r.history, s.history, js, j, r.jobs[j]);
      }
    }
  }

  lemma CreateJobOk(r: Rows, u: UserId, m: MaterialId, now: Time, n: LeaseId)
    requires RowsOk(r, n) && CreateJob(r, u, m, now).Some?
    ensures Keeps(r, CreateJob(r, u, m, now).value, n)
  {
    var s := CreateJob(r, u, m, now).value;
    if s != r {
      var h, j := r.history, r.nextJob;
      BelowGrows(h, j, n, j + 1, n);
      FreshJob(h, j, n, j);
      forall k | k in r.jobs ensures JobOk(s.history, k, r.jobs[k]) {
        OtherJob(h, s.history, {j}, k, r.jobs[k]);
      }
      forall k | k in r.materials ensures MaterialOk(s.history, k, r.materials[k]) {
        SameMaterial(h, s.history, {j}, k, r.materials[k]);
      }
    }
  }

  lemma GiveUpOk(r: Rows, j: JobId, code: ErrorCode, now: Time, n: LeaseId)
    requires RowsOk(r, n) && j in r.jobs && !Closed(r.jobs[j]) && !FailedForGood(r.jobs[j])
    ensures Keeps(r, GiveUp(r, j, code, now), n)
  {
    PatchOk(r, GiveUp(r, j, code, now), {j}, {r.jobs[j].material}, n);
  }

  lemma ClaimJobOk(r: Rows, u: UserId, j: JobId, now: Time, n: LeaseId)
    requires RowsOk(r, n)
    ensures Keeps(r, ClaimJob(r, u, j, now).0, n)
  {
    if j in r.jobs && r.jobs[j].status == Queued {
      NumbersUpToGrows(r.history, j, r.jobs[j].series, r.jobs[j].attemptCount, r.jobs[j].attemptCount + 1);
      PatchOk(r, ClaimJob(r, u, j, now).0, {j}, {}, n);
    }
  }

  lemma UpdateProgressOk(r: Rows, u: UserId, j: JobId, percent: int, attempt: Option<nat>, now: Time, n: LeaseId)
    requires RowsOk(r, n)
    ensures Keeps(r, UpdateProgress(r, u, j, percent, attempt, now), n)
  {
    PatchOk(r, UpdateProgress(r, u, j, percent, attempt, now), {j}, {}, n);
  }

  lemma FinishOk(r: Rows, j: JobId, now: Time, n: LeaseId)
    requires RowsOk(r, n) && j in r.jobs && !Closed(r.jobs[j]) && !FailedForGood(r.jobs[j])
    requires WasReady(r.history, r.jobs[j].material)
    ensures Keeps(r, Finish(r, j, now), n)
  {
    PatchOk(r, Finish(r, j, now), {j}, {}, n);
  }

  lemma MarkSucceededOk(r: Rows, u: UserId, j: JobId, attempt: Option<nat>, now: Time, n: LeaseId)
    requires RowsOk(r, n) && (j in r.jobs ==> WasReady(r.history, r.jobs[j].material))
    ensures Keeps(r, MarkSucceeded(r, u, j, attempt, now), n)
  {
    if IsCurrentAttempt(r, u, j, attempt) {
      FinishOk(r, j, now, n);
    } else {
      PatchOk(r, r, {}, {}, n);
    }
  }

  lemma FinishReadyOk(r: Rows, j: JobId, now: Time, n: LeaseId)
    requires RowsOk(r, n) && j in r.jobs && !Closed(r.jobs[j]) && !FailedForGood(r.jobs[j])
    requires r.materials[r.jobs[j].material].processing == Ready
    ensures Keeps(r, FinishReady(r, j, now), n)
  {
    PatchOk(r, FinishReady(r, j, now), {j}, {r.jobs[j].material}, n);
  }

  lemma CancelledRowOk(h: History, js: set<JobId>, j: JobId, job: Job, now: Time)
    requires JobOk(h, j, job) && Active(job)
    ensures JobOk(Then(h, CancelledJobs(js)), j, CancelledJob(job, now))
    ensures JobMoves(h, Then(h, CancelledJobs(js)), j, job, CancelledJob(job, now))
  {
  }

  lemma CancelOneOk(r: Rows, j: JobId, now: Time, n: LeaseId)
    requires RowsOk(r, n) && j in r.jobs && Active(r.jobs[j])
    ensures Keeps(r, CancelOne(r, j, now), n)
  {
    CancelledRowOk(r.history, {j}, j, r.jobs[j], now);
    PatchOk(r, CancelOne(r, j, now), {j}, {r.jobs[j].material}, n);
  }

  lemma MarkCancelledOk(r: Rows, u: UserId, j: JobId, attempt: Option<nat>, now: Time, n: LeaseId)
    requires RowsOk(r, n)
    ensures Keeps(r, MarkCancelled(r, u, j, attempt, now), n)
  {
    if IsCurrentAttempt(r, u, j, attempt) {
      CancelOneOk(r, j, now, n);
    } else {
      PatchOk(r, r, {}, {}, n);
    }
  }

  lemma CancelMaterialJobOk(r: Rows, u: UserId, m: MaterialId, now: Time, n: LeaseId)
    requires RowsOk(r, n)
    ensures Keeps(r, CancelMaterialJob(r, u, m, now), n)
  {
    var newest := NewestJob(r, u, m, false, r.nextJob);
    if newest.Some? && newest.value in r.jobs && Active(r.jobs[newest.value]) {
      CancelOneOk(r, newest.value, now, n);
    }
    PatchOk(r, r, {}, {}, n);
  }

  lemma SomeJobsCancelled(r: Rows, u: UserId, m: MaterialId, now: Time, n: LeaseId)
    requires RowsOk(r, n) && ActiveJobs(r, u, Some(m)) != {}
    ensures Keeps(r, CancelJobsForMaterial(r, u, m, now), n)
  {
    var js := ActiveJobs(r, u, Some(m));
    var s := CancelJobsForMaterial(r, u, m, now);
    var one :| one in js;
    assert OwnsMaterial(r, r.jobs[one].owner, r.jobs[one].material);
    assert MaterialMoves(s.history, m, r.materials[m], s.materials[m]);
    forall j | j in js && j in r.jobs
      ensures && r.jobs[j].material == m
              && JobOk(s.history, j, s.jobs[j])
              && JobMoves(r.history, s.history, j, r.jobs[j], s.jobs[j])
    {
      CancelledRowOk(r.history, js, j, r.jobs[j], now);
    }
    PatchOk(r, s, js, {m}, n);
  }

  lemma CancelJobsForMaterialOk(r: Rows, u: UserId, m: MaterialId, now: Time, n: LeaseId)
    requires RowsOk(r, n)
    ensures Keeps(r, CancelJobsForMaterial(r, u, m, now), n)
  {
    if ActiveJobs(r, u, Some(m)) == {} {
      PatchOk(r, r, {}, {}, n);
    } else {
      SomeJobsCancelled(r, u, m, now, n);
    }
  }

  lemma RetriedRowOk(h: History, j: JobId, job: Job, reset: Job)
    requires JobOk(h, j, job) && job.status == JobFailed
    requires reset == job.(status := Queued, attemptCount := 0, series := job.series + 1, progress := 0,
                           availableAt := reset.availableAt, error := NoError, updatedAt := reset.updatedAt)
    ensures JobOk(Then(h, Retried(j)), j, reset) && JobMoves(h, Then(h, Retried(j)), j, job, reset)
  {
    NewSeries(h, j, job.series);
  }

  lemma RetryJobOk(r: Rows, u: UserId, j: JobId, now: Time, n: LeaseId)
    requires RowsOk(r, n)
    ensures Keeps(r, RetryJob(r, u, j, now), n)
  {
    var s := RetryJob(r, u, j, now);
    if j in r.jobs && s != r {
      RetriedRowOk(r.history, j, r.jobs[j], s.jobs[j]);
      PatchOk(r, s, {j}, {r.jobs[j].material}, n);
    } else {
      PatchOk(r, r, {}, {}, n);
    }
  }

  lemma FenceForCleanupOk(r: Rows, j: JobId, now: Time, n: LeaseId)
    requires RowsOk(r, n) && j in r.jobs && !Closed(r.jobs[j]) && !FailedForGood(r.jobs[j])
    ensures Keeps(r, FenceForCleanup(r, j, now), n)
  {
    PatchOk(r, FenceForCleanup(r, j, now), {j}, {r.jobs[j].material}, n);
  }

  lemma WaitForRetryOk(r: Rows, j: JobId, code: ErrorCode, now: Time, n: LeaseId)
    requires RowsOk(r, n) && j in r.jobs && !Closed(r.jobs[j]) && !FailedForGood(r.jobs[j])
    requires r.jobs[j].attemptCount < MAX_ATTEMPTS
    ensures Keeps(r, WaitForRetry(r, j, code, now), n)
  {
    PatchOk(r, WaitForRetry(r, j, code, now), {j}, {r.jobs[j].material}, n);
  }

  lemma MarkFailedOk(r: Rows, u: UserId, j: JobId, code: ErrorCode, attempt: Option<nat>, now: Time, n: LeaseId)
    requires RowsOk(r, n)
    ensures Keeps(r, MarkFailed(r, u, j, code, attempt, now), n)
  {
    if IsCurrentAttempt(r, u, j, attempt) {
      var m := r.jobs[j].material;
      if r.materials[m].processing == Ready {
        FinishOk(r, j, now, n);
      } else if r.materials[m].chunks != {} {
        FenceForCleanupOk(r, j, now, n);
      } else if r.jobs[j].attemptCount >= r.jobs[j].maxAttempts {
        GiveUpOk(r, j, code, now, n);
      } else {
        WaitForRetryOk(r, j, code, now, n);
      }
    }
  }

  lemma CleanupIndexOk(r: Rows, u: UserId, m: MaterialId, n: LeaseId)
    requires RowsOk(r, n)
    ensures Keeps(r, CleanupIndex(r, u, m), n)
  {
    PatchOk(r, CleanupIndex(r, u, m), {}, {m}, n);
  }

  lemma RequeueOk(r: Rows, j: JobId, availableAt: Time, now: Time, n: LeaseId)
    requires RowsOk(r, n) && j in r.jobs && r.jobs[j].attemptCount < MAX_ATTEMPTS
    requires !Closed(r.jobs[j]) && !FailedForGood(r.jobs[j])
    ensures Keeps(r, Requeue(r, j, availableAt, now), n)
  {
    PatchOk(r, Requeue(r, j, availableAt, now), {j}, {r.jobs[j].material}, n);
  }

  lemma FinishCleanupOk(r: Rows, u: UserId, j: JobId, immediate: bool, now: Time, n: LeaseId)
    requires RowsOk(r, n)
    ensures Keeps(r, FinishCleanup(r, u, j, immediate, now), n)
  {
    var after := FinishCleanup(r, u, j, immediate, now);
    if UserActive(r, u) && OwnsJob(r, u, j) && r.jobs[j].status == JobFailed
       && r.jobs[j].error == CleanupPendingCode && MaterialAvailable(r, u, r.jobs[j].material)
    {
      var job := r.jobs[j];
      var mat := r.materials[job.material];
      if mat.processing == Ready {
        FinishReadyOk(r, j, now, n);
      } else if mat.chunks == {} && job.attemptCount >= job.maxAttempts {
        GiveUpOk(r, j, WorkerInterrupted, now, n);
      } else if mat.chunks == {} {
        var availableAt := now + (if immediate then 0 else RetryDelay(job.attemptCount));
        assert after == Requeue(r, j, availableAt, now);
        RequeueOk(r, j, availableAt, now, n);
      } else {
        PatchOk(r, r, {}, {}, n);
      }
    } else {
      assert after == r;
      PatchOk(r, r, {}, {}, n);
    }
  }

  lemma RecoverJobOk(r: Rows, u: UserId, j: JobId, now: Time, olderThan: Time, n: LeaseId)
    requires RowsOk(r, n)
    ensures Keeps(r, RecoverJob(r, u, j, now, olderThan), n)
  {
    if UserExists(r, u) && OwnsJob(r, u, j) && Recoverable(r.jobs[j], now, olderThan) {
      var m := r.jobs[j].material;
      if !MaterialAvailable(r, u, m) {
        PatchOk(r, RecoverJob(r, u, j, now, olderThan), {j}, {}, n);
      } else if r.materials[m].processing == Ready {
        FinishReadyOk(r, j, now, n);
      } else if r.materials[m].chunks != {} {
        FenceForCleanupOk(r, j, now, n);
      } else if r.jobs[j].attemptCount >= r.jobs[j].maxAttempts {
        GiveUpOk(r, j, WorkerInterrupted, now, n);
      } else {
        RequeueOk(r, j, now, now, n);
      }
    } else {
      PatchOk(r, r, {}, {}, n);
    }
  }
}
