/** What each transaction of the job service does to the rows. */
module Jobs {
  import opened Options
  import opened Tables

  const MAX_BACKOFF: nat := 3600

  function Pow2(n: nat): nat {
    if n == 0 then 1 else 2 * Pow2(n - 1)
  }

  function Backoff(n: nat): nat {
    if Pow2(n) < MAX_BACKOFF then Pow2(n) else MAX_BACKOFF
  }

  /** The delay after the given attempt failed. */
  function RetryDelay(attempt: nat): nat {
    Backoff(if attempt == 0 then 0 else attempt - 1)
  }

  /** The backoff doubles with each attempt up to the cap, and is never less than a second. */
  lemma {:induction false} BackoffDoubles(n: nat)
    ensures Backoff(0) == 1 && 1 <= Backoff(n) <= Backoff(n + 1) <= MAX_BACKOFF
    ensures Backoff(n + 1) == if 2 * Backoff(n) < MAX_BACKOFF then 2 * Backoff(n) else MAX_BACKOFF
  {
    if n > 0 {
      BackoffDoubles(n - 1);
    }
  }

  /** `attempt_count is None or job.attempt_count == attempt_count`, on a running job. */
  predicate IsCurrentAttempt(r: Rows, u: UserId, j: JobId, attempt: Option<nat>) {
    && OwnsJob(r, u, j)
    && r.jobs[j].status == Running
    && (attempt.Some? ==> r.jobs[j].attemptCount == attempt.value)
  }

  predicate IsCancelled(r: Rows, u: UserId, j: JobId, attempt: Option<nat>) {
    !IsCurrentAttempt(r, u, j, attempt)
  }

  /** The job is one of the material's, and active if that is asked for. */
  predicate IsJobOf(r: Rows, u: UserId, m: MaterialId, activeOnly: bool, j: JobId) {
    OwnsJob(r, u, j) && r.jobs[j].material == m && (activeOnly ==> Active(r.jobs[j]))
  }

  /** The newest job below `n` of the material that satisfies the filter. */
  function NewestJob(r: Rows, u: UserId, m: MaterialId, activeOnly: bool, n: JobId): Option<JobId> {
    if n == 0 then None
    else if IsJobOf(r, u, m, activeOnly, n - 1) then Some(n - 1)
    else NewestJob(r, u, m, activeOnly, n - 1)
  }

  /** None when the call raises; an existing active job is returned unchanged. */
  function CreateJob(r: Rows, u: UserId, m: MaterialId, now: Time): Option<Rows> {
    if !UserActive(r, u) || !MaterialAvailable(r, u, m) then None
    else if NewestJob(r, u, m, true, r.nextJob).Some? then Some(r)
    else
      var job := Job(u, m, Queued, 0, MAX_ATTEMPTS, now, now, 0, NoError, 0);
      Some(Log(PutJob(r, r.nextJob, job).(nextJob := r.nextJob + 1), Enqueued(r.nextJob)))
  }

  /** The attempt number handed out, when the claim succeeds. */
  function ClaimJob(r: Rows, u: UserId, j: JobId, now: Time): (Rows, Option<nat>) {
    if !UserActive(r, u) || !OwnsJob(r, u, j) then (r, None)
    else
      var job := r.jobs[j];
      if job.status != Queued || job.availableAt > now then (r, None)
      else if job.attemptCount >= job.maxAttempts then
        (GiveUp(r, j, MaxAttemptsExceeded, now), None)
      else
        var claimed := job.(status := Running, attemptCount := job.attemptCount + 1,
                            error := NoError, updatedAt := now);
        (Log(PutJob(r, j, claimed), Claimed(j, job.series, claimed.attemptCount)),
         Some(claimed.attemptCount))
  }

  /** The job fails for good and its material with it. */
  function GiveUp(r: Rows, j: JobId, code: ErrorCode, now: Time): Rows
    requires j in r.jobs
  {
    var job := r.jobs[j];
    var failed := PutJob(r, j, job.(status := JobFailed, error := code, updatedAt := now));
    if OwnsMaterial(r, job.owner, job.material) then
      PutMaterial(failed, job.material,
                  Settled(r.materials[job.material], ProcessingFailed, FailedMessage))
    else failed
  }

  function UpdateProgress(r: Rows, u: UserId, j: JobId, percent: int, attempt: Option<nat>, now: Time): Rows {
    if !IsCurrentAttempt(r, u, j, attempt) then r
    else
      var clamped := if percent < 0 then 0 else if percent > 100 then 100 else percent;
      PutJob(r, j, r.jobs[j].(progress := clamped, updatedAt := now))
  }

  /** The job row of a finished job. */
  function Completed(job: Job, now: Time): Job {
    job.(status := Succeeded, progress := 100, error := NoError, updatedAt := now)
  }

  function Finish(r: Rows, j: JobId, now: Time): Rows
    requires j in r.jobs
  {
    Log(PutJob(r, j, Completed(r.jobs[j], now)), Finished(j, r.jobs[j].material))
  }

  function MarkSucceeded(r: Rows, u: UserId, j: JobId, attempt: Option<nat>, now: Time): Rows {
    if !IsCurrentAttempt(r, u, j, attempt) then r else Finish(r, j, now)
  }

  function CancelledJob(job: Job, now: Time): Job {
    job.(status := Cancelled, error := ProcessingCancelledCode, updatedAt := now)
  }

  /** A cancelled job's material fails, unless processing already ended. */
  function CancelProcessing(mat: Material): Material {
    if mat.processing == Pending || mat.processing == Processing
    then Settled(mat, ProcessingFailed, CancelledMessage) else mat
  }

  function CancelOne(r: Rows, j: JobId, now: Time): Rows
    requires j in r.jobs
  {
    var job := r.jobs[j];
    var done := Log(PutJob(r, j, CancelledJob(job, now)), CancelledJobs({j}));
    if OwnsMaterial(r, job.owner, job.material)
    then PutMaterial(done, job.material, CancelProcessing(r.materials[job.material]))
    else done
  }

  function MarkCancelled(r: Rows, u: UserId, j: JobId, attempt: Option<nat>, now: Time): Rows {
    if !IsCurrentAttempt(r, u, j, attempt) then r else CancelOne(r, j, now)
  }

  function CancelMaterialJob(r: Rows, u: UserId, m: MaterialId, now: Time): Rows {
    if !UserActive(r, u) || !OwnsMaterial(r, u, m) then r
    else
      var newest := NewestJob(r, u, m, false, r.nextJob);
      if newest.None? || newest.value !in r.jobs || !Active(r.jobs[newest.value]) then r
      else CancelOne(r, newest.value, now)
  }

  /** The active jobs of one material, or of every material of the user. */
  function ActiveJobs(r: Rows, u: UserId, only: Option<MaterialId>): set<JobId> {
    set j | j in r.jobs && r.jobs[j].owner == u && Active(r.jobs[j])
            && (only.Some? ==> r.jobs[j].material == only.value)
  }

  function CancelAll(r: Rows, js: set<JobId>, now: Time): Rows {
    if js == {} then r
    else Log(r.(jobs := map j | j in r.jobs ::
                  if j in js then CancelledJob(r.jobs[j], now) else r.jobs[j]),
             CancelledJobs(js))
  }

  function CancelJobsForMaterial(r: Rows, u: UserId, m: MaterialId, now: Time): Rows {
    var js := ActiveJobs(r, u, Some(m));
    var done := CancelAll(r, js, now);
    if js != {} && OwnsMaterial(r, u, m)
    then PutMaterial(done, m, Settled(r.materials[m], ProcessingFailed, CancelledMessage))
    else done
  }

  /** Back to the queue; entering it from another status is a new queue episode. */
  function Enqueue(r: Rows, j: JobId, job: Job): Rows
    requires j in r.jobs
  {
    var queued := PutJob(r, j, job.(status := Queued));
    if r.jobs[j].status == Queued then queued else Log(queued, Enqueued(j))
  }

  function RetryJob(r: Rows, u: UserId, j: JobId, now: Time): Rows {
    if !UserActive(r, u) || !OwnsJob(r, u, j) then r
    else
      var job := r.jobs[j];
      if job.status != JobFailed || !MaterialAvailable(r, u, job.material) then r
      else
        var reset := job.(status := Queued, attemptCount := 0, series := job.series + 1, progress := 0,
                          availableAt := now + Backoff(job.attemptCount),
                          error := NoError, updatedAt := now);
        PutMaterial(Log(PutJob(r, j, reset), Retried(j)), job.material,
                    Settled(r.materials[job.material], Pending, NoMessage).(chunks := {}))
  }

  /** Fences the worker before its chunk rows are removed. */
  function FenceForCleanup(r: Rows, j: JobId, now: Time): Rows
    requires j in r.jobs
  {
    var job := r.jobs[j];
    var failed := PutJob(r, j, job.(status := JobFailed, error := CleanupPendingCode, updatedAt := now));
    if OwnsMaterial(r, job.owner, job.material) then
      PutMaterial(failed, job.material,
                  Settled(r.materials[job.material], ProcessingFailed, IndexCleanupPending))
    else failed
  }

  /** Attempts are left: the job waits for its backoff and the material with it. */
  function WaitForRetry(r: Rows, j: JobId, code: ErrorCode, now: Time): Rows
    requires j in r.jobs
  {
    var job := r.jobs[j];
    var again := job.(error := code, availableAt := now + RetryDelay(job.attemptCount), updatedAt := now);
    var queued := Enqueue(r, j, again);
    if OwnsMaterial(r, job.owner, job.material)
    then PutMaterial(queued, job.material, Settled(r.materials[job.material], Pending, NoMessage))
    else queued
  }

  /** The first transaction of mark_failed; the cleanup and requeue that may follow are their own. */
  function MarkFailed(r: Rows, u: UserId, j: JobId, code: ErrorCode, attempt: Option<nat>, now: Time): Rows {
    if !IsCurrentAttempt(r, u, j, attempt) then r
    else
      var job := r.jobs[j];
      var owned := OwnsMaterial(r, u, job.material);
      if owned && r.materials[job.material].processing == Ready then Finish(r, j, now)
      else if owned && r.materials[job.material].chunks != {} then FenceForCleanup(r, j, now)
      else if job.attemptCount < job.maxAttempts then
        WaitForRetry(r, j, code, now)
      else GiveUp(r, j, code, now)
  }

  function CleanupIndex(r: Rows, u: UserId, m: MaterialId): Rows {
    if !UserExists(r, u) || !OwnsMaterial(r, u, m) then r
    else PutMaterial(r, m, r.materials[m].(chunks := {}))
  }

  /** The part that finish_cleanup_recovery and recover_one_job share once cleanup is settled. */
  function Requeue(r: Rows, j: JobId, availableAt: Time, now: Time): Rows
    requires j in r.jobs && r.jobs[j].material in r.materials
  {
    var job := r.jobs[j];
    var again := job.(progress := 0, availableAt := availableAt, error := NoError, updatedAt := now);
    PutMaterial(Enqueue(r, j, again), job.material,
                Settled(r.materials[job.material], Pending, NoMessage))
  }

  /** A recovered job whose material turns out to be ready. */
  function FinishReady(r: Rows, j: JobId, now: Time): Rows
    requires j in r.jobs && r.jobs[j].material in r.materials
  {
    var m := r.jobs[j].material;
    PutMaterial(Finish(r, j, now), m, Unleased(r.materials[m]))
  }

  function FinishCleanup(r: Rows, u: UserId, j: JobId, immediate: bool, now: Time): Rows {
    if !UserActive(r, u) || !OwnsJob(r, u, j) then r
    else
      var job := r.jobs[j];
      if job.status != JobFailed || job.error != CleanupPendingCode then r
      else if !MaterialAvailable(r, u, job.material) then r
      else
        var mat := r.materials[job.material];
        if mat.processing == Ready then FinishReady(r, j, now)
        else if mat.chunks != {} then r
        else if job.attemptCount >= job.maxAttempts then GiveUp(r, j, WorkerInterrupted, now)
        else Requeue(r, j, now + (if immediate then 0 else RetryDelay(job.attemptCount)), now)
  }

  /** Due, stale or waiting for cleanup: the jobs a recovery scan may touch. */
  predicate Recoverable(job: Job, now: Time, olderThan: Time) {
    || (job.status == Queued && job.availableAt <= now)
    || (job.status == Running && job.updatedAt < olderThan)
    || (job.status == JobFailed && job.error == CleanupPendingCode)
  }

  function RecoverJob(r: Rows, u: UserId, j: JobId, now: Time, olderThan: Time): Rows {
    if !UserExists(r, u) || !OwnsJob(r, u, j) || !Recoverable(r.jobs[j], now, olderThan) then r
    else
      var job := r.jobs[j];
      if !MaterialAvailable(r, u, job.material) then
        PutJob(r, j, job.(status := JobFailed, error := MaterialUnavailable, updatedAt := now))
      else
        var mat := r.materials[job.material];
        if mat.processing == Ready then FinishReady(r, j, now)
        else if mat.chunks != {} then FenceForCleanup(r, j, now)
        else if job.attemptCount >= job.maxAttempts then GiveUp(r, j, WorkerInterrupted, now)
        else Requeue(r, j, now, now)
  }
}
