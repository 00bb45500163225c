/**
 The job service, one method per call, written against the tables. Each method keeps rows
 that are in order so, says what it leaves on the tables, and is proved equal to its
 transaction in `Jobs`; the calls that go on to clean up and requeue are proved equal to
 the sequence of their transactions.
 */
module JobService {
  import opened Options
  import opened Tables
  import opened Histories
  import opened RowInvariants
  import opened MaterialRows
  import opened Database
  import Jobs

  /** The newest job of the material, by walking the ids downwards. */
  method FindNewestJob(db: Session, u: UserId, m: MaterialId, activeOnly: bool) returns (found: Option<JobId>)
    ensures found == Jobs.NewestJob(db.Snapshot(), u, m, activeOnly, db.nextJob)
    ensures found.Some? ==> Jobs.IsJobOf(db.Snapshot(), u, m, activeOnly, found.value)
    ensures forall j: JobId | j < db.nextJob && Jobs.IsJobOf(db.Snapshot(), u, m, activeOnly, j) ::
              found.Some? && j <= found.value
  {
    var n: nat := db.nextJob;
    while n > 0
      invariant 0 <= n <= db.nextJob
      invariant Jobs.NewestJob(db.Snapshot(), u, m, activeOnly, db.nextJob)
             == Jobs.NewestJob(db.Snapshot(), u, m, activeOnly, n)
      invariant forall j | n <= j < db.nextJob :: !Jobs.IsJobOf(db.Snapshot(), u, m, activeOnly, j)
    {
      n := n - 1;
      if n in db.jobs && db.jobs[n].owner == u && db.jobs[n].material == m {
        if !activeOnly || db.jobs[n].status == Queued || db.jobs[n].status == Running {
          return Some(n);
        }
      }
    }
    return None;
  }

  /** Afterwards the material has an active job; a new one is added only if it had none. */
  method CreateMaterialJob(db: Session, u: UserId, m: MaterialId, now: Time) returns (created: bool)
    modifies db
    ensures var outcome := Jobs.CreateJob(old(db.Snapshot()), u, m, now);
            created == outcome.Some? && db.Snapshot() == outcome.GetOr(old(db.Snapshot()))
    ensures Preserves(old(db.Snapshot()), db.Snapshot())
    ensures created <==> old(db.IsActive(u) && db.HasMaterial(u, m) && db.materials[m].storage == Available)
    ensures created ==> exists j :: Jobs.IsJobOf(db.Snapshot(), u, m, true, j)
    ensures db.materials == old(db.materials) && db.users == old(db.users)
    ensures old(db.Valid()) ==>
              && (forall j | j in old(db.jobs) :: j in db.jobs && db.jobs[j] == old(db.jobs)[j])
              && (db.jobs.Keys == old(db.jobs).Keys
                  <==> !created || exists j :: Jobs.IsJobOf(old(db.Snapshot()), u, m, true, j))
    ensures db.jobs.Keys <= old(db.jobs).Keys + {old(db.nextJob)}
    ensures old(db.Valid()) && db.jobs.Keys != old(db.jobs).Keys ==>
              var j := old(db.nextJob);
              && Jobs.IsJobOf(db.Snapshot(), u, m, true, j) && db.jobs[j].progress == 0
              && forall t :: Jobs.ClaimJob(db.Snapshot(), u, j, t).1 == if t < now then None else Some(1)
  {
    forall n | RowsOk(db.Snapshot(), n) {
      CreateOk(db.Snapshot(), u, m, now, n);
    }
    if !db.IsActive(u) {
      return false;
    }
    if !db.HasMaterial(u, m) || db.materials[m].storage != Available {
      return false;
    }
    var active := FindNewestJob(db, u, m, true);
    if active.Some? {
      return true;
    }
    var j := db.nextJob;
    db.jobs := db.jobs[j := Job(u, m, Queued, 0, MAX_ATTEMPTS, now, now, 0, NoError, 0)];
    db.nextJob := j + 1;
    db.Note(Enqueued(j));
    assert Jobs.IsJobOf(db.Snapshot(), u, m, true, j);
    return true;
  }

  /** The attempt number handed out is the one that the other calls accept, until somebody else takes the job. */
  method ClaimJob(db: Session, u: UserId, j: JobId, now: Time) returns (number: Option<nat>)
    modifies db
    ensures (db.Snapshot(), number) == Jobs.ClaimJob(old(db.Snapshot()), u, j, now)
    ensures Preserves(old(db.Snapshot()), db.Snapshot())
    ensures old(db.Valid()) ==>
              if old(db.IsActive(u) && db.HasJob(u, j) && db.jobs[j].status == Queued && db.jobs[j].availableAt <= now)
              then && number == Some(old(db.jobs)[j].attemptCount + 1)
                   && LeavesJob(old(db.Snapshot()), db.Snapshot(), j,
                                old(db.jobs)[j].(status := Running, attemptCount := old(db.jobs)[j].attemptCount + 1,
                                                 error := NoError, updatedAt := now))
              else number == None && db.Snapshot() == old(db.Snapshot())
    ensures number.Some? ==> Jobs.IsCurrentAttempt(db.Snapshot(), u, j, number)
                             && forall t :: Jobs.ClaimJob(db.Snapshot(), u, j, t).1 == None
  {
    forall n | RowsOk(db.Snapshot(), n) {
      ClaimJobOk(db.Snapshot(), u, j, now, n);
    }
    number := None;
    if !db.Exists(u) || db.users[u].disabled {
      return;
    }
    if !db.HasJob(u, j) || db.jobs[j].status != Queued {
      return;
    }
    var job := db.jobs[j];
    if job.availableAt > now {
      return;
    }
    if job.attemptCount >= job.maxAttempts {
      job := job.(status := JobFailed);
      job := job.(error := MaxAttemptsExceeded);
      db.jobs := db.jobs[j := job.(updatedAt := now)];
      if db.HasMaterial(u, job.material) {
        db.Settle(job.material, ProcessingFailed, FailedMessage);
      }
      return;
    }
    job := job.(status := Running);
    job := job.(attemptCount := job.attemptCount + 1);
    job := job.(error := NoError);
    db.jobs := db.jobs[j := job.(updatedAt := now)];
    db.Note(Claimed(j, job.series, job.attemptCount));
    number := Some(job.attemptCount);
  }

  /** An attempt is cancelled exactly when reporting its success would change nothing. */
  method IsCancelled(db: Session, u: UserId, j: JobId, attempt: Option<nat>) returns (cancelled: bool)
    ensures cancelled == Jobs.IsCancelled(db.Snapshot(), u, j, attempt)
    ensures cancelled <==> forall t :: Jobs.MarkSucceeded(db.Snapshot(), u, j, attempt, t) == db.Snapshot()
  {
    assert Jobs.IsCurrentAttempt(db.Snapshot(), u, j, attempt) ==>
        Jobs.MarkSucceeded(db.Snapshot(), u, j, attempt, 0).jobs[j].status != db.jobs[j].status;
    if !db.HasJob(u, j) {
      return true;
    }
    return db.jobs[j].status != Running || (attempt.Some? && db.jobs[j].attemptCount != attempt.value);
  }

  method UpdateProgress(db: Session, u: UserId, j: JobId, percent: int, attempt: Option<nat>, now: Time)
    modifies db
    ensures db.Snapshot() == Jobs.UpdateProgress(old(db.Snapshot()), u, j, percent, attempt, now)
    ensures Preserves(old(db.Snapshot()), db.Snapshot())
    ensures if old(Jobs.IsCurrentAttempt(db.Snapshot(), u, j, attempt))
            then && LeavesJob(old(db.Snapshot()), db.Snapshot(), j,
                              old(db.jobs)[j].(progress := db.jobs[j].progress, updatedAt := now))
                 && Jobs.IsCurrentAttempt(db.Snapshot(), u, j, attempt)
                 && 0 <= db.jobs[j].progress <= 100
                 && (0 <= percent <= 100 ==> db.jobs[j].progress == percent)
                 && (percent < 0 ==> db.jobs[j].progress == 0) && (percent > 100 ==> db.jobs[j].progress == 100)
            else db.Snapshot() == old(db.Snapshot())
  {
    forall n | RowsOk(db.Snapshot(), n) {
      UpdateProgressOk(db.Snapshot(), u, j, percent, attempt, now, n);
    }
    var cancelled := IsCancelled(db, u, j, attempt);
    if !cancelled {
      var percent := if percent < 100 then percent else 100;
      percent := if percent > 0 then percent else 0;
      db.jobs := db.jobs[j := db.jobs[j].(progress := percent, updatedAt := now)];
    }
  }

  /** No attempt of the job can do anything any more. */
  ghost predicate AllFenced(r: Rows, u: UserId, j: JobId) {
    forall attempt :: Jobs.IsCancelled(r, u, j, attempt)
  }

  /** The columns of a job that is done. */
  method Complete(db: Session, j: JobId, now: Time)
    requires j in db.jobs
    modifies db
    ensures db.Snapshot() == Jobs.Finish(old(db.Snapshot()), j, now)
  {
    var job := db.jobs[j];
    job := job.(status := Succeeded);
    job := job.(progress := 100);
    job := job.(error := NoError);
    db.jobs := db.jobs[j := job.(updatedAt := now)];
    db.Note(Finished(j, job.material));
  }

  /** The worker reports success only after seeing its material READY. */
  method MarkSucceeded(db: Session, u: UserId, j: JobId, attempt: Option<nat>, now: Time)
    modifies db
    ensures db.Snapshot() == Jobs.MarkSucceeded(old(db.Snapshot()), u, j, attempt, now)
    ensures (j in old(db.jobs) ==> WasReady(old(db.history), old(db.jobs)[j].material)) ==>
              Preserves(old(db.Snapshot()), db.Snapshot())
    ensures if old(Jobs.IsCurrentAttempt(db.Snapshot(), u, j, attempt))
            then && LeavesJob(old(db.Snapshot()), db.Snapshot(), j,
                              old(db.jobs)[j].(status := Succeeded, progress := 100, error := NoError, updatedAt := now))
                 && AllFenced(db.Snapshot(), u, j)
            else db.Snapshot() == old(db.Snapshot())
  {
    if j in db.jobs ==> WasReady(db.history, db.jobs[j].material) {
      forall n | RowsOk(db.Snapshot(), n) {
        MarkSucceededOk(db.Snapshot(), u, j, attempt, now, n);
      }
    }
    var cancelled := IsCancelled(db, u, j, attempt);
    if !cancelled {
      Complete(db, j, now);
    }
  }

  /** Cancels one job; its material fails with it while it is pending or being processed. */
  method CancelOne(db: Session, j: JobId, now: Time)
    requires j in db.jobs
    modifies db
    ensures db.Snapshot() == Jobs.CancelOne(old(db.Snapshot()), j, now)
  {
    var job := db.jobs[j];
    job := job.(status := Cancelled);
    job := job.(error := ProcessingCancelledCode);
    db.jobs := db.jobs[j := job.(updatedAt := now)];
    db.Note(CancelledJobs({j}));
    var m := job.material;
    if db.HasMaterial(job.owner, m) {
      if db.materials[m].processing == Pending || db.materials[m].processing == Processing {
        db.Settle(m, ProcessingFailed, CancelledMessage);
      } else {
        assert db.materials == db.materials[m := db.materials[m]];
      }
    }
  }

  /** The cancelled job's material is left without a lease, so no attempt can make it READY. */
  method MarkCancelled(db: Session, u: UserId, j: JobId, attempt: Option<nat>, now: Time)
    modifies db
    ensures db.Snapshot() == Jobs.MarkCancelled(old(db.Snapshot()), u, j, attempt, now)
    ensures Preserves(old(db.Snapshot()), db.Snapshot())
    ensures if old(Jobs.IsCurrentAttempt(db.Snapshot(), u, j, attempt))
            then && IsCancellation(old(db.Snapshot()), db.Snapshot(), j, now) && AllFenced(db.Snapshot(), u, j)
                 && (old(db.Valid()) ==> db.materials[db.jobs[j].material].lease == None)
            else db.Snapshot() == old(db.Snapshot())
  {
    forall n | RowsOk(db.Snapshot(), n) {
      MarkCancelledOk(db.Snapshot(), u, j, attempt, now, n);
    }
    var cancelled := IsCancelled(db, u, j, attempt);
    if !cancelled {
      CancelOne(db, j, now);
    }
  }

  /** One job is cancelled, and its material fails if it was waiting or being processed. */
  predicate IsCancellation(r: Rows, s: Rows, j: JobId, now: Time) {
    && j in r.jobs
    && var job, m := r.jobs[j], r.jobs[j].material;
       var cancelled := job.(status := Cancelled, error := ProcessingCancelledCode, updatedAt := now);
       if OwnsMaterial(r, job.owner, m) && r.materials[m].processing in {Pending, Processing}
       then Leaves(r, s, j, cancelled, m, Settled(r.materials[m], ProcessingFailed, CancelledMessage))
       else LeavesJob(r, s, j, cancelled)
  }

  /** The job of the material with the greatest id. */
  ghost predicate IsNewest(r: Rows, u: UserId, m: MaterialId, j: JobId) {
    Jobs.IsJobOf(r, u, m, false, j) && forall k: JobId | Jobs.IsJobOf(r, u, m, false, k) :: k <= j
  }

  /** The walk finds the newest job that passes the filter. */
  lemma {:induction false} NewestIsFound(r: Rows, u: UserId, m: MaterialId, activeOnly: bool, n: JobId)
    ensures var newest := Jobs.NewestJob(r, u, m, activeOnly, n);
            && (newest.Some? ==> newest.value < n && Jobs.IsJobOf(r, u, m, activeOnly, newest.value))
            && forall k: JobId | k < n && Jobs.IsJobOf(r, u, m, activeOnly, k) :: newest.Some? && k <= newest.value
  {
    if n > 0 {
      NewestIsFound(r, u, m, activeOnly, n - 1);
    }
  }

  lemma CancelReachesNewest(r: Rows, u: UserId, m: MaterialId, now: Time, j: JobId)
    requires InOrder(r) && UserActive(r, u) && OwnsMaterial(r, u, m) && IsNewest(r, u, m, j)
    ensures var s := Jobs.CancelMaterialJob(r, u, m, now);
            if Active(r.jobs[j]) then IsCancellation(r, s, j, now) && AllFenced(s, u, j) else s == r
  {
    NewestIsFound(r, u, m, false, r.nextJob);
    assert Jobs.NewestJob(r, u, m, false, r.nextJob) == Some(j);
  }

  /** The owner's cancel request reaches the newest job only, and only while it is active. */
  method CancelMaterialJob(db: Session, u: UserId, m: MaterialId, now: Time)
    modifies db
    ensures db.Snapshot() == Jobs.CancelMaterialJob(old(db.Snapshot()), u, m, now)
    ensures Preserves(old(db.Snapshot()), db.Snapshot())
    ensures old(db.Valid() && db.IsActive(u) && db.HasMaterial(u, m)) ==>
              forall j | IsNewest(old(db.Snapshot()), u, m, j) ::
                if Active(old(db.jobs)[j])
                then IsCancellation(old(db.Snapshot()), db.Snapshot(), j, now) && AllFenced(db.Snapshot(), u, j)
                else db.Snapshot() == old(db.Snapshot())
  {
    ghost var r := db.Snapshot();
    forall n | RowsOk(r, n) {
      CancelMaterialJobOk(r, u, m, now, n);
    }
    forall j | InOrder(r) && UserActive(r, u) && OwnsMaterial(r, u, m) && IsNewest(r, u, m, j) {
      CancelReachesNewest(r, u, m, now, j);
    }
    if !db.IsActive(u) || !db.HasMaterial(u, m) {
      return;
    }
    var newest := FindNewestJob(db, u, m, false);
    if newest.Some? && (db.jobs[newest.value].status == Queued || db.jobs[newest.value].status == Running) {
      CancelOne(db, newest.value, now);
    }
  }

  /** Marks the given jobs as cancelled, one by one. */
  method CancelEach(db: Session, js: set<JobId>, now: Time) returns (count: nat)
    requires js <= db.jobs.Keys
    modifies db`jobs
    ensures count == |js|
    ensures db.jobs == map j | j in old(db.jobs) ::
                         if j in js then Jobs.CancelledJob(old(db.jobs)[j], now) else old(db.jobs)[j]
  {
    ghost var before := db.jobs;
    var left := js;
    count := 0;
    while left != {}
      invariant left <= js && count == |js| - |left|
      invariant db.jobs.Keys == before.Keys
      invariant forall j | j in before ::
                  db.jobs[j] == if j in js && j !in left then Jobs.CancelledJob(before[j], now) else before[j]
      decreases left
    {
      var j :| j in left;
      var job := db.jobs[j];
      job := job.(status := Cancelled);
      job := job.(error := ProcessingCancelledCode);
      db.jobs := db.jobs[j := job.(updatedAt := now)];
      left := left - {j};
      count := count + 1;
    }
  }

  /** Exactly the active jobs of the material are cancelled, and the material fails if there was one. */
  predicate CancelsAll(r: Rows, s: Rows, u: UserId, m: MaterialId, now: Time, count: nat) {
    && s.users == r.users && s.nextMaterial == r.nextMaterial && s.nextJob == r.nextJob
    && s.jobs.Keys == r.jobs.Keys
    && (forall j | j in r.jobs ::
          s.jobs[j] == if r.jobs[j].owner == u && r.jobs[j].material == m && r.jobs[j].status in {Queued, Running}
                       then r.jobs[j].(status := Cancelled, error := ProcessingCancelledCode, updatedAt := now)
                       else r.jobs[j])
    && (count == 0 <==> forall j | j in r.jobs ::
          !(r.jobs[j].owner == u && r.jobs[j].material == m && r.jobs[j].status in {Queued, Running}))
    && s.materials == if count > 0 && OwnsMaterial(r, u, m)
                      then r.materials[m := Settled(r.materials[m], ProcessingFailed, CancelledMessage)]
                      else r.materials
  }

  lemma CancelsAllOfThem(r: Rows, u: UserId, m: MaterialId, now: Time)
    ensures CancelsAll(r, Jobs.CancelJobsForMaterial(r, u, m, now), u, m, now, |Jobs.ActiveJobs(r, u, Some(m))|)
  {
    var js := Jobs.ActiveJobs(r, u, Some(m));
    assert |js| == 0 <==> js == {};
    forall j | j in r.jobs
      ensures j in js
              <==> r.jobs[j].owner == u && r.jobs[j].material == m && r.jobs[j].status in {Queued, Running}
    {
    }
  }

  lemma NoneIsLeftActive(r: Rows, u: UserId, m: MaterialId, now: Time)
    ensures forall j :: !Jobs.IsJobOf(Jobs.CancelJobsForMaterial(r, u, m, now), u, m, true, j)
  {
    var s := Jobs.CancelJobsForMaterial(r, u, m, now);
    forall j ensures !Jobs.IsJobOf(s, u, m, true, j) {
      assert j in Jobs.ActiveJobs(r, u, Some(m)) <==> Jobs.IsJobOf(r, u, m, true, j);
    }
  }

  method CancelActive(db: Session, u: UserId, m: MaterialId, now: Time) returns (count: nat)
    modifies db
    ensures db.Snapshot() == Jobs.CancelJobsForMaterial(old(db.Snapshot()), u, m, now)
    ensures count == |Jobs.ActiveJobs(old(db.Snapshot()), u, Some(m))|
  {
    var active := set j | j in db.jobs && db.jobs[j].owner == u && db.jobs[j].material == m
                          && (db.jobs[j].status == Queued || db.jobs[j].status == Running);
    assert active == Jobs.ActiveJobs(db.Snapshot(), u, Some(m));
    count := CancelEach(db, active, now);
    if count > 0 {
      db.Note(CancelledJobs(active));
      if db.HasMaterial(u, m) {
        db.Settle(m, ProcessingFailed, CancelledMessage);
      }
    } else {
      assert db.jobs == old(db.jobs);
    }
  }

  lemma CancellationOutcome(r: Rows, u: UserId, m: MaterialId, now: Time)
    ensures var s := Jobs.CancelJobsForMaterial(r, u, m, now);
            && Preserves(r, s) && CancelsAll(r, s, u, m, now, |Jobs.ActiveJobs(r, u, Some(m))|)
            && forall j :: !Jobs.IsJobOf(s, u, m, true, j)
  {
    forall n | RowsOk(r, n) {
      CancelJobsForMaterialOk(r, u, m, now, n);
    }
    NoneIsLeftActive(r, u, m, now);
    CancelsAllOfThem(r, u, m, now);
  }

  /** Cancels every active job of the material and says how many there were. */
  method CancelJobsForMaterial(db: Session, u: UserId, m: MaterialId, now: Time) returns (count: nat)
    modifies db
    ensures db.Snapshot() == Jobs.CancelJobsForMaterial(old(db.Snapshot()), u, m, now)
    ensures count == |Jobs.ActiveJobs(old(db.Snapshot()), u, Some(m))|
    ensures Preserves(old(db.Snapshot()), db.Snapshot())
    ensures forall j :: !Jobs.IsJobOf(db.Snapshot(), u, m, true, j)
    ensures CancelsAll(old(db.Snapshot()), db.Snapshot(), u, m, now, count)
  {
    CancellationOutcome(db.Snapshot(), u, m, now);
    count := CancelActive(db, u, m, now);
  }

  /** The job can be claimed from its due time on, as attempt one of a new series. */
  ghost predicate StartsAgain(r: Rows, s: Rows, u: UserId, j: JobId, now: Time)
    requires OwnsJob(r, u, j) && r.jobs[j].material in r.materials
  {
    var job, m := r.jobs[j], r.jobs[j].material;
    var due := now + Jobs.Backoff(job.attemptCount);
    && now < due
    && Leaves(r, s, j,
              job.(status := Queued, attemptCount := 0, series := job.series + 1, progress := 0, availableAt := due,
                   error := NoError, updatedAt := now),
              m, Settled(r.materials[m], Pending, NoMessage).(chunks := {}))
    && forall t :: Jobs.ClaimJob(s, u, j, t).1 == if t < due || job.maxAttempts == 0 then None else Some(1)
  }

  predicate MayRetry(r: Rows, u: UserId, j: JobId) {
    UserActive(r, u) && OwnsJob(r, u, j) && r.jobs[j].status == JobFailed && MaterialAvailable(r, u, r.jobs[j].material)
  }

  lemma RetryStartsAgain(r: Rows, u: UserId, j: JobId, now: Time)
    ensures var s := Jobs.RetryJob(r, u, j, now);
            if MayRetry(r, u, j) then StartsAgain(r, s, u, j, now) else s == r
  {
    if MayRetry(r, u, j) {
      Jobs.BackoffDoubles(r.jobs[j].attemptCount);
    }
  }

  /** Only a failed job whose object is available is retried, after its backoff. */
  method RetryJob(db: Session, u: UserId, j: JobId, now: Time)
    modifies db
    ensures db.Snapshot() == Jobs.RetryJob(old(db.Snapshot()), u, j, now)
    ensures Preserves(old(db.Snapshot()), db.Snapshot())
    ensures if old(MayRetry(db.Snapshot(), u, j))
            then StartsAgain(old(db.Snapshot()), db.Snapshot(), u, j, now)
            else db.Snapshot() == old(db.Snapshot())
  {
    RetryStartsAgain(db.Snapshot(), u, j, now);
    forall n | RowsOk(db.Snapshot(), n) {
      RetryJobOk(db.Snapshot(), u, j, now, n);
    }
    if !db.IsActive(u) || !db.HasJob(u, j) {
      return;
    }
    var job := db.jobs[j];
    if job.status == Succeeded || job.status == Queued || job.status == Running || job.status == Cancelled {
      return;
    }
    var m := job.material;
    if !db.HasMaterial(u, m) || db.materials[m].storage != Available {
      return;
    }
    db.materials := db.materials[m := db.materials[m].(chunks := {})];
    var delay := Jobs.Backoff(job.attemptCount);
    job := job.(status := Queued);
    job := job.(attemptCount := 0, series := job.series + 1);
    job := job.(progress := 0);
    job := job.(availableAt := now + delay);
    job := job.(error := NoError);
    db.jobs := db.jobs[j := job.(updatedAt := now)];
    db.Note(Retried(j));
    db.Settle(m, Pending, NoMessage);
  }

  /** Fails the job and its material until the chunk rows are gone. */
  method Fence(db: Session, j: JobId, now: Time)
    requires j in db.jobs
    modifies db
    ensures db.Snapshot() == Jobs.FenceForCleanup(old(db.Snapshot()), j, now)
  {
    var job := db.jobs[j];
    job := job.(status := JobFailed);
    job := job.(error := CleanupPendingCode);
    db.jobs := db.jobs[j := job.(updatedAt := now)];
    if db.HasMaterial(job.owner, job.material) {
      db.Settle(job.material, ProcessingFailed, IndexCleanupPending);
    }
  }

  method GiveUp(db: Session, j: JobId, code: ErrorCode, now: Time)
    requires j in db.jobs
    modifies db
    ensures db.Snapshot() == Jobs.GiveUp(old(db.Snapshot()), j, code, now)
  {
    var job := db.jobs[j];
    job := job.(status := JobFailed);
    job := job.(error := code);
    db.jobs := db.jobs[j := job.(updatedAt := now)];
    if db.HasMaterial(job.owner, job.material) {
      db.Settle(job.material, ProcessingFailed, FailedMessage);
    }
  }

  /** The job goes back to the queue and its material waits with it. */
  method Requeue(db: Session, j: JobId, availableAt: Time, now: Time)
    requires j in db.jobs && db.jobs[j].material in db.materials
    modifies db
    ensures db.Snapshot() == Jobs.Requeue(old(db.Snapshot()), j, availableAt, now)
  {
    var job := db.jobs[j];
    var wasQueued := job.status == Queued;
    job := job.(status := Queued);
    job := job.(progress := 0);
    job := job.(availableAt := availableAt);
    job := job.(error := NoError);
    db.jobs := db.jobs[j := job.(updatedAt := now)];
    if !wasQueued {
      db.Note(Enqueued(j));
    }
    db.Settle(job.material, Pending, NoMessage);
  }

  method FinishReady(db: Session, j: JobId, now: Time)
    requires j in db.jobs && db.jobs[j].material in db.materials
    modifies db
    ensures db.Snapshot() == Jobs.FinishReady(old(db.Snapshot()), j, now)
  {
    var m := db.jobs[j].material;
    Complete(db, j, now);
    db.materials := db.materials[m := db.materials[m].(lease := None, leaseExpires := None)];
  }

  /** The delay before the attempt after the given one: it starts at a second and doubles up to the cap. */
  function DelayAfter(attempt: nat): nat {
    Jobs.Backoff(if attempt == 0 then 0 else attempt - 1)
  }

  /** The job and its available material are done. */
  predicate EndsDone(r: Rows, s: Rows, j: JobId, now: Time)
    requires j in r.jobs && r.jobs[j].material in r.materials
  {
    var m := r.jobs[j].material;
    Leaves(r, s, j, r.jobs[j].(status := Succeeded, progress := 100, error := NoError, updatedAt := now),
           m, r.materials[m].(lease := None, leaseExpires := None))
  }

  /** The job waits in the queue until `due`, and its material with it. */
  predicate EndsQueued(r: Rows, s: Rows, j: JobId, due: Time, now: Time)
    requires j in r.jobs && r.jobs[j].material in r.materials
  {
    var m := r.jobs[j].material;
    Leaves(r, s, j, r.jobs[j].(status := Queued, progress := 0, availableAt := due, error := NoError, updatedAt := now),
           m, r.materials[m].(processing := Pending, lease := None, leaseExpires := None, message := NoMessage,
                              chunks := {}))
  }

  /** The job and its material have failed; chunk rows that could not be cleaned up are left. */
  predicate EndsFailed(r: Rows, s: Rows, j: JobId, code: ErrorCode, message: Message, left: set<ChunkId>, now: Time)
    requires j in r.jobs && r.jobs[j].material in r.materials
  {
    var m := r.jobs[j].material;
    Leaves(r, s, j, r.jobs[j].(status := JobFailed, error := code, updatedAt := now),
           m, r.materials[m].(processing := ProcessingFailed, lease := None, leaseExpires := None, message := message,
                              chunks := left))
  }

  /** What becomes of a job waiting for cleanup, by the state of its available material. */
  predicate CleanupSettles(r: Rows, s: Rows, u: UserId, j: JobId, due: Time, now: Time)
    requires j in r.jobs && r.jobs[j].material in r.materials
  {
    var job, mat := r.jobs[j], r.materials[r.jobs[j].material];
    && (mat.processing == Ready ==> EndsDone(r, s, j, now))
    && (mat.processing != Ready && mat.chunks != {} ==> s == r)
    && (mat.processing != Ready && mat.chunks == {} && job.attemptCount < job.maxAttempts ==>
          EndsQueued(r, s, j, due, now))
    && (mat.processing != Ready && mat.chunks == {} && job.attemptCount >= job.maxAttempts ==>
          EndsFailed(r, s, j, WorkerInterrupted, FailedMessage, {}, now))
  }

  lemma FinishCleanupSettles(r: Rows, u: UserId, j: JobId, immediate: bool, now: Time)
    requires UserActive(r, u) && WaitsForCleanup(r, u, j) && MaterialAvailable(r, u, r.jobs[j].material)
    ensures CleanupSettles(r, Jobs.FinishCleanup(r, u, j, immediate, now), u, j,
                           now + if immediate then 0 else DelayAfter(r.jobs[j].attemptCount), now)
  {
  }

  predicate WaitsForCleanup(r: Rows, u: UserId, j: JobId) {
    OwnsJob(r, u, j) && r.jobs[j].status == JobFailed && r.jobs[j].error == CleanupPendingCode
  }

  method CleanupMaterialIndex(db: Session, u: UserId, m: MaterialId) returns (cleaned: bool)
    modifies db
    ensures db.Snapshot() == Jobs.CleanupIndex(old(db.Snapshot()), u, m)
    ensures cleaned == (UserExists(old(db.Snapshot()), u) && OwnsMaterial(old(db.Snapshot()), u, m))
  {
    if !db.Exists(u) || !db.HasMaterial(u, m) {
      return false;
    }
    db.materials := db.materials[m := db.materials[m].(chunks := {})];
    return true;
  }

  /** The job leaves the cleanup state unless chunk rows are left, and only by one of three ways. */
  method FinishCleanupRecovery(db: Session, u: UserId, j: JobId, immediate: bool, now: Time)
    modifies db
    ensures db.Snapshot() == Jobs.FinishCleanup(old(db.Snapshot()), u, j, immediate, now)
    ensures Preserves(old(db.Snapshot()), db.Snapshot())
    ensures if old(db.IsActive(u) && WaitsForCleanup(db.Snapshot(), u, j)
                   && MaterialAvailable(db.Snapshot(), u, db.jobs[j].material))
            then CleanupSettles(old(db.Snapshot()), db.Snapshot(), u, j,
                                now + if immediate then 0 else DelayAfter(db.jobs[j].attemptCount), now)
            else db.Snapshot() == old(db.Snapshot())
  {
    forall n | RowsOk(db.Snapshot(), n) {
      FinishCleanupOk(db.Snapshot(), u, j, immediate, now, n);
    }
    if db.IsActive(u) && WaitsForCleanup(db.Snapshot(), u, j)
       && MaterialAvailable(db.Snapshot(), u, db.jobs[j].material)
    {
      FinishCleanupSettles(db.Snapshot(), u, j, immediate, now);
    }
    if !db.IsActive(u) || !db.HasJob(u, j) {
      return;
    }
    var job := db.jobs[j];
    if job.status != JobFailed || job.error != CleanupPendingCode {
      return;
    }
    var m := job.material;
    if !db.HasMaterial(u, m) || db.materials[m].storage != Available {
      return;
    }
    if db.materials[m].processing == Ready {
      FinishReady(db, j, now);
      return;
    }
    if db.materials[m].chunks != {} {
      return;
    }
    if job.attemptCount >= job.maxAttempts {
      GiveUp(db, j, WorkerInterrupted, now);
      return;
    }
    var delay := if immediate then 0 else Jobs.RetryDelay(job.attemptCount);
    Requeue(db, j, now + delay, now);
  }

  // ---------------------------------------------------------------- calls of several transactions

  /** The last attempt already failed to clean the index: it is left to the recovery scan. */
  predicate AlreadyAttempted(mat: Material) {
    mat.processing == ProcessingFailed && mat.message == IndexCleanupPending
  }

  /** The call fences the job because chunk rows are left. */
  predicate Fences(r: Rows, u: UserId, j: JobId) {
    && OwnsJob(r, u, j)
    && OwnsMaterial(r, u, r.jobs[j].material)
    && r.materials[r.jobs[j].material].processing != Ready
    && r.materials[r.jobs[j].material].chunks != {}
  }

  /** What follows a fence: the chunk rows go, then the job is settled, unless the cleanup raises. */
  function Unfence(r: Rows, u: UserId, j: JobId, immediate: bool, raises: bool, now: Time): Rows
    requires j in r.jobs
  {
    if raises || !UserExists(r, u) || !OwnsMaterial(r, u, r.jobs[j].material) then r
    else Jobs.FinishCleanup(Jobs.CleanupIndex(r, u, r.jobs[j].material), u, j, immediate, now)
  }

  /** A failure call from start to end when nobody else runs in between. */
  function Failed(r: Rows, u: UserId, j: JobId, code: ErrorCode, attempt: Option<nat>,
                  raises: bool, now: Time, later: Time): Rows {
    var s := Jobs.MarkFailed(r, u, j, code, attempt, now);
    if Jobs.IsCurrentAttempt(r, u, j, attempt) && Fences(r, u, j)
       && !AlreadyAttempted(r.materials[r.jobs[j].material])
    then Unfence(s, u, j, false, raises, later) else s
  }

  /** `s` is `r` after its job was fenced and its chunk rows removed. */
  predicate IsCleaned(r: Rows, s: Rows, u: UserId, j: JobId, now: Time) {
    && OwnsJob(r, u, j) && OwnsMaterial(r, u, r.jobs[j].material)
    && var m := r.jobs[j].material;
       && s.jobs == r.jobs[j := r.jobs[j].(status := JobFailed, error := CleanupPendingCode, updatedAt := now)]
       && s.materials == r.materials[m := Settled(r.materials[m], ProcessingFailed, IndexCleanupPending).(chunks := {})]
       && s.users == r.users && s.nextMaterial == r.nextMaterial && s.nextJob == r.nextJob
  }

  lemma FencedRows(r: Rows, u: UserId, j: JobId, now: Time)
    requires UserExists(r, u) && OwnsJob(r, u, j) && Fences(r, u, j)
    ensures IsCleaned(r, Jobs.CleanupIndex(Jobs.FenceForCleanup(r, j, now), u, r.jobs[j].material), u, j, now)
  {
  }

  /** A job settled after its cleanup ends as if it had been settled at once. */
  lemma CleanedThenSettled(r: Rows, s: Rows, t: Rows, u: UserId, j: JobId, due: Time, now: Time, later: Time)
    requires IsCleaned(r, s, u, j, now) && r.materials[r.jobs[j].material].processing != Ready
    requires CleanupSettles(s, t, u, j, due, later)
    ensures if r.jobs[j].attemptCount < r.jobs[j].maxAttempts then EndsQueued(r, t, j, due, later)
            else EndsFailed(r, t, j, WorkerInterrupted, FailedMessage, {}, later)
  {
  }

  /** How a fence ends once its cleanup was tried, at `due` if the job is queued again. */
  predicate FenceSettles(r: Rows, t: Rows, u: UserId, j: JobId, raises: bool, due: Time, now: Time, later: Time)
    requires j in r.jobs && r.jobs[j].material in r.materials
  {
    var job, mat := r.jobs[j], r.materials[r.jobs[j].material];
    && (raises || !UserExists(r, u) ==>
          EndsFailed(r, t, j, CleanupPendingCode, IndexCleanupPending, mat.chunks, now))
    && (!raises && UserExists(r, u) && !(UserActive(r, u) && MaterialAvailable(r, u, job.material)) ==>
          EndsFailed(r, t, j, CleanupPendingCode, IndexCleanupPending, {}, now))
    && (!raises && UserActive(r, u) && MaterialAvailable(r, u, job.material) ==>
          if job.attemptCount < job.maxAttempts then EndsQueued(r, t, j, due, later)
          else EndsFailed(r, t, j, WorkerInterrupted, FailedMessage, {}, later))
  }

  lemma UnfenceSettles(r: Rows, u: UserId, j: JobId, immediate: bool, raises: bool, now: Time, later: Time)
    requires OwnsJob(r, u, j) && Fences(r, u, j)
    ensures FenceSettles(r, Unfence(Jobs.FenceForCleanup(r, j, now), u, j, immediate, raises, later), u, j, raises,
                         later + if immediate then 0 else DelayAfter(r.jobs[j].attemptCount), now, later)
  {
    var m := r.jobs[j].material;
    var s := Jobs.FenceForCleanup(r, j, now);
    assert EndsFailed(r, s, j, CleanupPendingCode, IndexCleanupPending, r.materials[m].chunks, now);
    if UserExists(r, u) && !raises {
      var c := Jobs.CleanupIndex(s, u, m);
      FencedRows(r, u, j, now);
      assert EndsFailed(r, c, j, CleanupPendingCode, IndexCleanupPending, {}, now);
      if UserActive(r, u) && MaterialAvailable(r, u, m) {
        FinishCleanupSettles(c, u, j, immediate, later);
        CleanedThenSettled(r, c, Jobs.FinishCleanup(c, u, j, immediate, later), u, j,
                           later + if immediate then 0 else DelayAfter(r.jobs[j].attemptCount), now, later);
      } else {
        assert Jobs.FinishCleanup(c, u, j, immediate, later) == c;
      }
    }
  }

  lemma UnfenceOk(r: Rows, u: UserId, j: JobId, immediate: bool, raises: bool, now: Time, n: LeaseId)
    requires RowsOk(r, n) && j in r.jobs
    ensures Keeps(r, Unfence(r, u, j, immediate, raises, now), n)
  {
    var s := Jobs.CleanupIndex(r, u, r.jobs[j].material);
    QuietRefl(r, n);
    CleanupIndexOk(r, u, r.jobs[j].material, n);
    FinishCleanupOk(s, u, j, immediate, now, n);
    QuietTrans(r, s, Jobs.FinishCleanup(s, u, j, immediate, now), n);
  }

  lemma FailedOk(r: Rows, u: UserId, j: JobId, code: ErrorCode, attempt: Option<nat>,
                 raises: bool, now: Time, later: Time, n: LeaseId)
    requires RowsOk(r, n)
    ensures Keeps(r, Failed(r, u, j, code, attempt, raises, now, later), n)
  {
    var s := Jobs.MarkFailed(r, u, j, code, attempt, now);
    MarkFailedOk(r, u, j, code, attempt, now, n);
    if j in s.jobs {
      UnfenceOk(s, u, j, false, raises, later, n);
      QuietTrans(r, s, Unfence(s, u, j, false, raises, later), n);
    }
  }

  /** What a failure call leaves of the attempt, its job and its material. */
  ghost predicate EndsAttempt(r: Rows, s: Rows, u: UserId, j: JobId)
    requires OwnsJob(r, u, j)
  {
    var m := r.jobs[j].material;
    && OnlyChanges(r, s, {j}, {m})
    && AllFenced(s, u, j)
    && s.jobs[j].attemptCount == r.jobs[j].attemptCount && s.jobs[j].status != Cancelled
    && (s.jobs[j].status == Succeeded <==> OwnsMaterial(r, u, m) && r.materials[m].processing == Ready)
    && (s.jobs[j].status == Queued ==> s.jobs[j].attemptCount < s.jobs[j].maxAttempts)
    && (OwnsMaterial(r, u, m) && r.materials[m].processing != Ready ==>
          s.materials[m].lease == None && s.materials[m].processing != Processing)
  }

  /** The rows after a failure of the current attempt, in every case. */
  predicate FailureSettles(r: Rows, s: Rows, u: UserId, j: JobId, code: ErrorCode, raises: bool, now: Time, later: Time)
    requires OwnsJob(r, u, j)
  {
    var job, m := r.jobs[j], r.jobs[j].material;
    var delay := DelayAfter(job.attemptCount);
    var waiting := job.(status := Queued, error := code, availableAt := now + delay, updatedAt := now);
    var failed := job.(status := JobFailed, error := code, updatedAt := now);
    var left := job.attemptCount < job.maxAttempts;
    if !OwnsMaterial(r, u, m) then LeavesJob(r, s, j, if left then waiting else failed)
    else
      var mat := r.materials[m];
      && (mat.processing == Ready ==>
            LeavesJob(r, s, j, job.(status := Succeeded, progress := 100, error := NoError, updatedAt := now)))
      && (mat.processing != Ready && mat.chunks == {} ==>
            if left then Leaves(r, s, j, waiting, m, Settled(mat, Pending, NoMessage))
            else EndsFailed(r, s, j, code, FailedMessage, {}, now))
      && (mat.processing != Ready && mat.chunks != {} && AlreadyAttempted(mat) ==>
            EndsFailed(r, s, j, CleanupPendingCode, IndexCleanupPending, mat.chunks, now))
      && (mat.processing != Ready && mat.chunks != {} && !AlreadyAttempted(mat) ==>
            FenceSettles(r, s, u, j, raises, later + delay, now, later))
  }

  lemma FailureIsSettled(r: Rows, u: UserId, j: JobId, code: ErrorCode, attempt: Option<nat>,
                         raises: bool, now: Time, later: Time)
    requires Jobs.IsCurrentAttempt(r, u, j, attempt)
    ensures FailureSettles(r, Failed(r, u, j, code, attempt, raises, now, later), u, j, code, raises, now, later)
  {
    if Fences(r, u, j) {
      UnfenceSettles(r, u, j, false, raises, now, later);
      assert Jobs.MarkFailed(r, u, j, code, attempt, now) == Jobs.FenceForCleanup(r, j, now);
    } else {
      UnfencedIsSettled(r, u, j, code, attempt, raises, now, later);
    }
  }

  lemma UnfencedIsSettled(r: Rows, u: UserId, j: JobId, code: ErrorCode, attempt: Option<nat>,
                          raises: bool, now: Time, later: Time)
    requires Jobs.IsCurrentAttempt(r, u, j, attempt) && !Fences(r, u, j)
    ensures FailureSettles(r, Jobs.MarkFailed(r, u, j, code, attempt, now), u, j, code, raises, now, later)
  {
  }

  /** Nothing stands in the way of the cleanup that the call goes on with. */
  predicate MayCleanUp(r: Rows, u: UserId, j: JobId, raises: bool)
    requires j in r.jobs
  {
    && !raises && UserActive(r, u) && MaterialAvailable(r, u, r.jobs[j].material)
    && !AlreadyAttempted(r.materials[r.jobs[j].material])
  }

  lemma FinishEnds(r: Rows, u: UserId, j: JobId, now: Time)
    requires OwnsJob(r, u, j) && OwnsMaterial(r, u, r.jobs[j].material)
    requires r.materials[r.jobs[j].material].processing == Ready
    ensures EndsAttempt(r, Jobs.Finish(r, j, now), u, j)
  {
  }

  lemma FenceEnds(r: Rows, u: UserId, j: JobId, now: Time)
    requires OwnsJob(r, u, j) && OwnsMaterial(r, u, r.jobs[j].material)
    requires r.materials[r.jobs[j].material].processing != Ready
    ensures EndsAttempt(r, Jobs.FenceForCleanup(r, j, now), u, j)
  {
  }

  lemma WaitEnds(r: Rows, u: UserId, j: JobId, code: ErrorCode, now: Time)
    requires OwnsJob(r, u, j) && r.jobs[j].attemptCount < r.jobs[j].maxAttempts
    requires OwnsMaterial(r, u, r.jobs[j].material) ==> r.materials[r.jobs[j].material].processing != Ready
    ensures EndsAttempt(r, Jobs.WaitForRetry(r, j, code, now), u, j)
  {
  }

  lemma GiveUpEnds(r: Rows, u: UserId, j: JobId, code: ErrorCode, now: Time)
    requires OwnsJob(r, u, j)
    requires OwnsMaterial(r, u, r.jobs[j].material) ==> r.materials[r.jobs[j].material].processing != Ready
    ensures EndsAttempt(r, Jobs.GiveUp(r, j, code, now), u, j)
  {
  }

  lemma FirstTransactionEnds(r: Rows, u: UserId, j: JobId, code: ErrorCode, attempt: Option<nat>, now: Time)
    requires Jobs.IsCurrentAttempt(r, u, j, attempt)
    ensures EndsAttempt(r, Jobs.MarkFailed(r, u, j, code, attempt, now), u, j)
  {
    var m := r.jobs[j].material;
    if OwnsMaterial(r, u, m) && r.materials[m].processing == Ready {
      FinishEnds(r, u, j, now);
    } else if Fences(r, u, j) {
      FenceEnds(r, u, j, now);
    } else if r.jobs[j].attemptCount < r.jobs[j].maxAttempts {
      WaitEnds(r, u, j, code, now);
    } else {
      GiveUpEnds(r, u, j, code, now);
    }
  }

  lemma FailureEnds(r: Rows, u: UserId, j: JobId, code: ErrorCode, attempt: Option<nat>,
                    raises: bool, now: Time, later: Time)
    requires Jobs.IsCurrentAttempt(r, u, j, attempt)
    ensures var s := Failed(r, u, j, code, attempt, raises, now, later);
            EndsAttempt(r, s, u, j) && (MayCleanUp(r, u, j, raises) ==> !Fences(s, u, j))
  {
    if Fences(r, u, j) {
      FencedFailureEnds(r, u, j, raises, now, later);
      assert Jobs.MarkFailed(r, u, j, code, attempt, now) == Jobs.FenceForCleanup(r, j, now);
    } else {
      FirstTransactionEnds(r, u, j, code, attempt, now);
      UnfencedStays(r, u, j, code, attempt, now);
    }
  }

  lemma FencedFailureEnds(r: Rows, u: UserId, j: JobId, raises: bool, now: Time, later: Time)
    requires OwnsJob(r, u, j) && Fences(r, u, j)
    ensures var s := Jobs.FenceForCleanup(r, j, now);
            var t := Unfence(s, u, j, false, raises, later);
            && EndsAttempt(r, s, u, j) && EndsAttempt(r, t, u, j)
            && (MayCleanUp(r, u, j, raises) ==> !Fences(t, u, j))
  {
    FenceEnds(r, u, j, now);
    UnfenceEnds(r, Jobs.FenceForCleanup(r, j, now), u, j, raises, later);
  }

  lemma UnfencedStays(r: Rows, u: UserId, j: JobId, code: ErrorCode, attempt: Option<nat>, now: Time)
    requires Jobs.IsCurrentAttempt(r, u, j, attempt) && !Fences(r, u, j)
    ensures !Fences(Jobs.MarkFailed(r, u, j, code, attempt, now), u, j)
  {
  }

  lemma UnfenceEnds(r: Rows, s: Rows, u: UserId, j: JobId, raises: bool, now: Time)
    requires OwnsJob(r, u, j) && EndsAttempt(r, s, u, j) && s.jobs[j].material == r.jobs[j].material
    requires WaitsForCleanup(s, u, j)
    requires OwnsMaterial(s, u, s.jobs[j].material) && s.materials[s.jobs[j].material].processing != Ready
    ensures var t := Unfence(s, u, j, false, raises, now);
            && EndsAttempt(r, t, u, j)
            && (!raises && UserActive(r, u) && MaterialAvailable(s, u, r.jobs[j].material) ==> !Fences(t, u, j))
  {
  }

  /**
   A failed attempt is over: its job succeeded after all, waits with attempts left, or failed;
   no chunk row is left unless its material is READY or the cleanup could not be done.
   */
  method MarkFailed(db: Session, u: UserId, j: JobId, code: ErrorCode, attempt: Option<nat>,
                    raises: bool, now: Time, later: Time)
    modifies db
    ensures db.Snapshot() == Failed(old(db.Snapshot()), u, j, code, attempt, raises, now, later)
    ensures Preserves(old(db.Snapshot()), db.Snapshot())
    ensures if old(Jobs.IsCurrentAttempt(db.Snapshot(), u, j, attempt))
            then EndsAttempt(old(db.Snapshot()), db.Snapshot(), u, j)
                 && (old(MayCleanUp(db.Snapshot(), u, j, raises)) ==> !Fences(db.Snapshot(), u, j))
                 && FailureSettles(old(db.Snapshot()), db.Snapshot(), u, j, code, raises, now, later)
            else db.Snapshot() == old(db.Snapshot())
  {
    forall n | RowsOk(db.Snapshot(), n) {
      FailedOk(db.Snapshot(), u, j, code, attempt, raises, now, later, n);
    }
    if Jobs.IsCurrentAttempt(db.Snapshot(), u, j, attempt) {
      FailureEnds(db.Snapshot(), u, j, code, attempt, raises, now, later);
      FailureIsSettled(db.Snapshot(), u, j, code, attempt, raises, now, later);
    }
    var fenced := FailOrFence(db, u, j, code, attempt, now);
    if fenced {
      SettleFenced(db, u, j, false, raises, later);
    }
  }

  /** The transaction that records the failure, and whether it leaves chunk rows to clean up. */
  method FailOrFence(db: Session, u: UserId, j: JobId, code: ErrorCode, attempt: Option<nat>, now: Time)
    returns (fenced: bool)
    modifies db
    ensures db.Snapshot() == Jobs.MarkFailed(old(db.Snapshot()), u, j, code, attempt, now)
    ensures var r := old(db.Snapshot());
            fenced == (Jobs.IsCurrentAttempt(r, u, j, attempt) && Fences(r, u, j)
                       && !AlreadyAttempted(r.materials[r.jobs[j].material]))
  {
    if !db.HasJob(u, j) {
      return false;
    }
    var job := db.jobs[j];
    if job.status != Running || (attempt.Some? && job.attemptCount != attempt.value) {
      return false;
    }
    var m := job.material;
    var owned := db.HasMaterial(u, m);
    if owned && db.materials[m].processing == Ready {
      Complete(db, j, now);
      return false;
    }
    if owned && db.materials[m].chunks != {} {
      fenced := !AlreadyAttempted(db.materials[m]);
      Fence(db, j, now);
      return;
    }
    if job.attemptCount < job.maxAttempts {
      WaitForRetry(db, j, code, now);
    } else {
      GiveUp(db, j, code, now);
    }
    return false;
  }

  /** Attempts are left: the job waits for its backoff, and its material with it. */
  method WaitForRetry(db: Session, j: JobId, code: ErrorCode, now: Time)
    requires j in db.jobs
    modifies db
    ensures db.Snapshot() == Jobs.WaitForRetry(old(db.Snapshot()), j, code, now)
  {
    var job := db.jobs[j];
    var wasQueued := job.status == Queued;
    job := job.(error := code);
    job := job.(status := Queued);
    job := job.(availableAt := now + Jobs.RetryDelay(job.attemptCount));
    db.jobs := db.jobs[j := job.(updatedAt := now)];
    if !wasQueued {
      db.Note(Enqueued(j));
    }
    if db.HasMaterial(job.owner, job.material) {
      db.Settle(job.material, Pending, NoMessage);
    }
  }

  method SettleFenced(db: Session, u: UserId, j: JobId, immediate: bool, raises: bool, now: Time)
    requires j in db.jobs
    modifies db
    ensures db.Snapshot() == Unfence(old(db.Snapshot()), u, j, immediate, raises, now)
  {
    if raises {
      return;
    }
    var cleaned := CleanupMaterialIndex(db, u, db.jobs[j].material);
    if cleaned {
      FinishCleanupRecovery(db, u, j, immediate, now);
    }
  }

  /** The recovery of one job from start to end when nobody else runs in between. */
  function RecoverOne(r: Rows, u: UserId, j: JobId, olderThan: Time, raises: bool, now: Time, later: Time): Rows {
    var s := Jobs.RecoverJob(r, u, j, now, olderThan);
    if UserExists(r, u) && OwnsJob(r, u, j) && Jobs.Recoverable(r.jobs[j], now, olderThan)
       && MaterialAvailable(r, u, r.jobs[j].material) && Fences(r, u, j)
    then Unfence(s, u, j, true, raises, later) else s
  }

  lemma RecoverOneOk(r: Rows, u: UserId, j: JobId, olderThan: Time, raises: bool, now: Time, later: Time, n: LeaseId)
    requires RowsOk(r, n)
    ensures Keeps(r, RecoverOne(r, u, j, olderThan, raises, now, later), n)
  {
    var s := Jobs.RecoverJob(r, u, j, now, olderThan);
    RecoverJobOk(r, u, j, now, olderThan, n);
    if j in s.jobs {
      UnfenceOk(s, u, j, true, raises, later, n);
      QuietTrans(r, s, Unfence(s, u, j, true, raises, later), n);
    }
  }

  predicate IsCandidate(r: Rows, u: UserId, j: JobId, now: Time, olderThan: Time) {
    OwnsJob(r, u, j) && Jobs.Recoverable(r.jobs[j], now, olderThan)
  }

  /** The job is not running, and not waiting for a cleanup that has been done. */
  predicate Resolved(job: Job, raises: bool) {
    || (job.status == Queued && job.attemptCount < job.maxAttempts)
    || job.status == Succeeded
    || (job.status == JobFailed && (raises || job.error != CleanupPendingCode))
  }

  lemma RecoverJobFrame(r: Rows, u: UserId, j: JobId, now: Time, olderThan: Time)
    ensures var s := Jobs.RecoverJob(r, u, j, now, olderThan);
            if j in r.jobs then OnlyChanges(r, s, {j}, {r.jobs[j].material}) && s.jobs[j].material == r.jobs[j].material
            else s == r
  {
  }

  lemma UnfenceFrame(r: Rows, u: UserId, j: JobId, immediate: bool, raises: bool, now: Time)
    requires j in r.jobs
    ensures OnlyChanges(r, Unfence(r, u, j, immediate, raises, now), {j}, {r.jobs[j].material})
  {
  }

  /** The recovery of one job touches no other job and no user. */
  lemma RecoverOneFrame(r: Rows, u: UserId, j: JobId, olderThan: Time, raises: bool, now: Time, later: Time)
    ensures var s := RecoverOne(r, u, j, olderThan, raises, now, later);
            if j in r.jobs then OnlyChanges(r, s, {j}, {r.jobs[j].material}) else s == r
  {
    RecoverJobFrame(r, u, j, now, olderThan);
    if j in r.jobs {
      UnfenceFrame(Jobs.RecoverJob(r, u, j, now, olderThan), u, j, true, raises, later);
    }
  }

  lemma RecoverOneResolves(r: Rows, u: UserId, j: JobId, olderThan: Time, raises: bool, now: Time, later: Time)
    requires UserActive(r, u) && IsCandidate(r, u, j, now, olderThan)
    ensures Resolved(RecoverOne(r, u, j, olderThan, raises, now, later).jobs[j], raises)
  {
    if MaterialAvailable(r, u, r.jobs[j].material) && Fences(r, u, j) {
      var s := Jobs.RecoverJob(r, u, j, now, olderThan);
      assert s == Jobs.FenceForCleanup(r, j, now);
      var t := Jobs.CleanupIndex(s, u, r.jobs[j].material);
      assert MaterialAvailable(t, u, r.jobs[j].material) && t.jobs == s.jobs;
    }
  }

  /** The rows after the recovery of a candidate, in every case; a queued job is due at once. */
  predicate RecoverySettles(r: Rows, s: Rows, u: UserId, j: JobId, raises: bool, now: Time, later: Time)
    requires OwnsJob(r, u, j)
  {
    var job, m := r.jobs[j], r.jobs[j].material;
    if !MaterialAvailable(r, u, m)
    then LeavesJob(r, s, j, job.(status := JobFailed, error := MaterialUnavailable, updatedAt := now))
    else
      var mat := r.materials[m];
      && (mat.processing == Ready ==> EndsDone(r, s, j, now))
      && (mat.processing != Ready && mat.chunks == {} ==>
            if job.attemptCount < job.maxAttempts then EndsQueued(r, s, j, now, now)
            else EndsFailed(r, s, j, WorkerInterrupted, FailedMessage, {}, now))
      && (mat.processing != Ready && mat.chunks != {} ==>
            FenceSettles(r, s, u, j, raises, later, now, later))
  }

  lemma RecoveryIsSettled(r: Rows, u: UserId, j: JobId, olderThan: Time, raises: bool, now: Time, later: Time)
    requires UserExists(r, u) && IsCandidate(r, u, j, now, olderThan)
    ensures RecoverySettles(r, RecoverOne(r, u, j, olderThan, raises, now, later), u, j, raises, now, later)
  {
    if MaterialAvailable(r, u, r.jobs[j].material) && Fences(r, u, j) {
      UnfenceSettles(r, u, j, true, raises, now, later);
      assert Jobs.RecoverJob(r, u, j, now, olderThan) == Jobs.FenceForCleanup(r, j, now);
    } else {
      UnfencedRecovery(r, u, j, olderThan, raises, now, later);
    }
  }

  lemma UnfencedRecovery(r: Rows, u: UserId, j: JobId, olderThan: Time, raises: bool, now: Time, later: Time)
    requires UserExists(r, u) && IsCandidate(r, u, j, now, olderThan)
    requires !(MaterialAvailable(r, u, r.jobs[j].material) && Fences(r, u, j))
    ensures RecoverySettles(r, Jobs.RecoverJob(r, u, j, now, olderThan), u, j, raises, now, later)
  {
  }

  /** Recovers exactly the candidates; those of an active user are neither running nor left to clean up. */
  method RecoverOneJob(db: Session, u: UserId, j: JobId, olderThan: Time, raises: bool, now: Time, later: Time)
    returns (recovered: bool)
    modifies db
    ensures db.Snapshot() == RecoverOne(old(db.Snapshot()), u, j, olderThan, raises, now, later)
    ensures Preserves(old(db.Snapshot()), db.Snapshot())
    ensures recovered <==> old(db.Exists(u) && IsCandidate(db.Snapshot(), u, j, now, olderThan))
    ensures if recovered
            then && OnlyChanges(old(db.Snapshot()), db.Snapshot(), {j}, {old(db.jobs)[j].material})
                 && (old(db.IsActive(u)) ==> Resolved(db.jobs[j], raises))
                 && RecoverySettles(old(db.Snapshot()), db.Snapshot(), u, j, raises, now, later)
            else db.Snapshot() == old(db.Snapshot())
  {
    forall n | RowsOk(db.Snapshot(), n) {
      RecoverOneOk(db.Snapshot(), u, j, olderThan, raises, now, later, n);
    }
    RecoverOneFrame(db.Snapshot(), u, j, olderThan, raises, now, later);
    if db.Exists(u) && IsCandidate(db.Snapshot(), u, j, now, olderThan) {
      RecoveryIsSettled(db.Snapshot(), u, j, olderThan, raises, now, later);
    }
    if db.IsActive(u) && IsCandidate(db.Snapshot(), u, j, now, olderThan) {
      RecoverOneResolves(db.Snapshot(), u, j, olderThan, raises, now, later);
    }
    var fenced: bool;
    recovered, fenced := RecoverOrFence(db, u, j, olderThan, now);
    if fenced {
      SettleFenced(db, u, j, true, raises, later);
    }
  }

  /** The transaction that takes the job over, and whether it leaves chunk rows to clean up. */
  method RecoverOrFence(db: Session, u: UserId, j: JobId, olderThan: Time, now: Time)
    returns (recovered: bool, fenced: bool)
    modifies db
    ensures db.Snapshot() == Jobs.RecoverJob(old(db.Snapshot()), u, j, now, olderThan)
    ensures var r := old(db.Snapshot());
            && recovered == (UserExists(r, u) && IsCandidate(r, u, j, now, olderThan))
            && fenced == (recovered && MaterialAvailable(r, u, r.jobs[j].material) && Fences(r, u, j))
  {
    recovered, fenced := false, false;
    if !db.Exists(u) || !db.HasJob(u, j) {
      return;
    }
    var job := db.jobs[j];
    var isDue := job.status == Queued && job.availableAt <= now;
    var isStale := job.status == Running && job.updatedAt < olderThan;
    var isCleanupRetry := job.status == JobFailed && job.error == CleanupPendingCode;
    if !(isDue || isStale || isCleanupRetry) {
      return;
    }
    recovered := true;
    var m := job.material;
    if !db.HasMaterial(u, m) || db.materials[m].storage != Available {
      job := job.(status := JobFailed);
      job := job.(error := MaterialUnavailable);
      db.jobs := db.jobs[j := job.(updatedAt := now)];
      return;
    }
    if db.materials[m].processing == Ready {
      FinishReady(db, j, now);
      return;
    }
    if db.materials[m].chunks != {} {
      Fence(db, j, now);
      fenced := true;
      return;
    }
    if job.attemptCount >= job.maxAttempts {
      GiveUp(db, j, WorkerInterrupted, now);
      return;
    }
    Requeue(db, j, now, now);
  }

  // ---------------------------------------------------------------- the recovery scan

  predicate NoRepeats(ids: seq<JobId>) {
    forall i, k | 0 <= i < k < |ids| :: ids[i] != ids[k]
  }

  /** The candidates in some order; the scan only collects ids and changes nothing. */
  method CandidateIds(db: Session, u: UserId, now: Time, olderThan: Time) returns (ids: seq<JobId>)
    ensures NoRepeats(ids)
    ensures forall j :: j in ids <==> IsCandidate(db.Snapshot(), u, j, now, olderThan)
  {
    var left := set j | j in db.jobs && db.jobs[j].owner == u && Jobs.Recoverable(db.jobs[j], now, olderThan);
    ids := [];
    while left != {}
      invariant NoRepeats(ids)
      invariant forall j :: j in ids || j in left <==> IsCandidate(db.Snapshot(), u, j, now, olderThan)
      invariant forall j | j in left :: j !in ids
      decreases left
    {
      var j :| j in left;
      ids := ids + [j];
      left := left - {j};
    }
  }

  /** Each candidate gets its own lock window and clock readings. */
  function RecoverAll(r: Rows, u: UserId, ids: seq<JobId>, olderThan: Time, raises: bool,
                      clock: nat -> Time, tick: nat): (Rows, nat)
    decreases |ids|
  {
    if ids == [] then (r, 0)
    else
      var one := if UserExists(r, u) && IsCandidate(r, u, ids[0], clock(tick), olderThan) then 1 else 0;
      var s := RecoverOne(r, u, ids[0], olderThan, raises, clock(tick), clock(tick + 1));
      var (t, more) := RecoverAll(s, u, ids[1..], olderThan, raises, clock, tick + 2);
      (t, one + more)
  }

  lemma RecoverAllStep(r: Rows, u: UserId, ids: seq<JobId>, i: nat, olderThan: Time, raises: bool,
                       clock: nat -> Time, tick: nat)
    requires i < |ids|
    ensures RecoverAll(r, u, ids[i..], olderThan, raises, clock, tick)
         == var one := if UserExists(r, u) && IsCandidate(r, u, ids[i], clock(tick), olderThan) then 1 else 0;
            var s := RecoverOne(r, u, ids[i], olderThan, raises, clock(tick), clock(tick + 1));
            var (t, more) := RecoverAll(s, u, ids[i + 1..], olderThan, raises, clock, tick + 2);
            (t, one + more)
  {
    assert ids[i..][1..] == ids[i + 1..];
  }

  method RecoverJobs(db: Session, u: UserId, olderThan: Time, raises: bool, clock: nat -> Time)
    returns (recovered: nat, ghost order: seq<JobId>)
    modifies db
    ensures Preserves(old(db.Snapshot()), db.Snapshot())
    ensures var r := old(db.Snapshot());
            if UserActive(r, u) then
              && NoRepeats(order)
              && (forall j :: j in order <==> IsCandidate(r, u, j, clock(0), olderThan))
              && (db.Snapshot(), recovered) == RecoverAll(r, u, order, olderThan, raises, clock, 1)
            else db.Snapshot() == r && recovered == 0
  {
    recovered, order := 0, [];
    if !db.IsActive(u) {
      forall n | RowsOk(db.Snapshot(), n) {
        QuietRefl(db.Snapshot(), n);
      }
      return;
    }
    var ids := CandidateIds(db, u, clock(0), olderThan);
    order := ids;
    recovered := RecoverEach(db, u, ids, olderThan, raises, clock);
  }

  method RecoverEach(db: Session, u: UserId, ids: seq<JobId>, olderThan: Time, raises: bool, clock: nat -> Time)
    returns (recovered: nat)
    modifies db
    ensures Preserves(old(db.Snapshot()), db.Snapshot())
    ensures (db.Snapshot(), recovered) == RecoverAll(old(db.Snapshot()), u, ids, olderThan, raises, clock, 1)
  {
    ghost var r := db.Snapshot();
    ghost var goal := RecoverAll(r, u, ids, olderThan, raises, clock, 1);
    forall n | RowsOk(r, n) {
      QuietRefl(r, n);
    }
    recovered := 0;
    var i, tick: nat := 0, 1;
    assert ids[0..] == ids;
    while i < |ids|
      invariant 0 <= i <= |ids|
      invariant goal.0 == RecoverAll(db.Snapshot(), u, ids[i..], olderThan, raises, clock, tick).0
      invariant goal.1 == recovered + RecoverAll(db.Snapshot(), u, ids[i..], olderThan, raises, clock, tick).1
      invariant Preserves(r, db.Snapshot())
    {
      ghost var s := db.Snapshot();
      RecoverAllStep(s, u, ids, i, olderThan, raises, clock, tick);
      var done := RecoverOneJob(db, u, ids[i], olderThan, raises, clock(tick), clock(tick + 1));
      PreservesTrans(r, s, db.Snapshot());
      if done {
        recovered := recovered + 1;
      }
      i, tick := i + 1, tick + 2;
    }
  }

  /**
   With nobody else at work and a clock that does not go back, the scan recovers every
   candidate and leaves none running or waiting for cleanup, in whatever order it goes.
   */
  lemma {:induction false} ScanResolvesEveryCandidate(r: Rows, u: UserId, ids: seq<JobId>, olderThan: Time, raises: bool,
                                                      clock: nat -> Time, start: Time, tick: nat)
    requires UserActive(r, u) && NoRepeats(ids)
    requires forall j | j in ids :: IsCandidate(r, u, j, start, olderThan)
    requires forall i | i >= tick :: start <= clock(i)
    ensures var (s, recovered) := RecoverAll(r, u, ids, olderThan, raises, clock, tick);
            && recovered == |ids|
            && s.jobs.Keys == r.jobs.Keys
            && (forall j | j in ids :: j in s.jobs && Resolved(s.jobs[j], raises))
            && (forall j | j in r.jobs && j !in ids :: s.jobs[j] == r.jobs[j])
    decreases |ids|
  {
    if ids != [] {
      var j, rest := ids[0], ids[1..];
      assert j in ids && forall k | k in rest :: k in ids && k != j;
      var s := RecoverOne(r, u, j, olderThan, raises, clock(tick), clock(tick + 1));
      assert IsCandidate(r, u, j, clock(tick), olderThan);
      RecoverOneFrame(r, u, j, olderThan, raises, clock(tick), clock(tick + 1));
      RecoverOneResolves(r, u, j, olderThan, raises, clock(tick), clock(tick + 1));
      ScanResolvesEveryCandidate(s, u, rest, olderThan, raises, clock, start, tick + 2);
      assert j !in rest;
      assert forall k | k in ids :: k == j || k in rest;
    }
  }

  // ---------------------------------------------------------------- leftover chunk rows make no difference

  /** The same rows without the chunk rows of one material. */
  function WithoutChunks(r: Rows, m: MaterialId): Rows
    requires m in r.materials
  {
    PutMaterial(r, m, r.materials[m].(chunks := {}))
  }

  /** The job ends the same way, and so do the materials unless it succeeded. */
  predicate SameFate(s: Rows, t: Rows, j: JobId) {
    && j in s.jobs && j in t.jobs
    && s.jobs[j].status == t.jobs[j].status
    && s.jobs[j].attemptCount == t.jobs[j].attemptCount
    && s.jobs[j].availableAt == t.jobs[j].availableAt
    && (s.jobs[j].status != Succeeded ==> s.materials == t.materials)
  }

  lemma CleanedWaits(r: Rows, s: Rows, u: UserId, j: JobId, code: ErrorCode, now: Time)
    requires IsCleaned(r, s, u, j, now) && r.jobs[j].status == Running
    ensures SameFate(Jobs.Requeue(s, j, now + Jobs.RetryDelay(r.jobs[j].attemptCount), now),
                     Jobs.WaitForRetry(WithoutChunks(r, r.jobs[j].material), j, code, now), j)
  {
  }

  lemma CleanedGivesUp(r: Rows, s: Rows, u: UserId, j: JobId, code: ErrorCode, now: Time)
    requires IsCleaned(r, s, u, j, now)
    ensures SameFate(Jobs.GiveUp(s, j, WorkerInterrupted, now),
                     Jobs.GiveUp(WithoutChunks(r, r.jobs[j].material), j, code, now), j)
  {
  }

  lemma FinishCleaned(r: Rows, s: Rows, u: UserId, j: JobId, now: Time)
    requires IsCleaned(r, s, u, j, now) && UserActive(r, u) && MaterialAvailable(r, u, r.jobs[j].material)
    ensures Jobs.FinishCleanup(s, u, j, false, now)
         == if r.jobs[j].attemptCount < r.jobs[j].maxAttempts
            then Jobs.Requeue(s, j, now + Jobs.RetryDelay(r.jobs[j].attemptCount), now)
            else Jobs.GiveUp(s, j, WorkerInterrupted, now)
  {
  }

  /** A fenced failure whose chunk rows are gone, against the same failure without any. */
  lemma FencedFailure(r: Rows, u: UserId, j: JobId, code: ErrorCode, now: Time)
    requires UserActive(r, u) && OwnsJob(r, u, j) && r.jobs[j].status == Running
    requires MaterialAvailable(r, u, r.jobs[j].material) && Fences(r, u, j)
    ensures var c := WithoutChunks(r, r.jobs[j].material);
            SameFate(Unfence(Jobs.FenceForCleanup(r, j, now), u, j, false, false, now),
                     if r.jobs[j].attemptCount < r.jobs[j].maxAttempts
                     then Jobs.WaitForRetry(c, j, code, now) else Jobs.GiveUp(c, j, code, now), j)
  {
    var s := Jobs.CleanupIndex(Jobs.FenceForCleanup(r, j, now), u, r.jobs[j].material);
    FencedRows(r, u, j, now);
    FinishCleaned(r, s, u, j, now);
    if r.jobs[j].attemptCount < r.jobs[j].maxAttempts {
      CleanedWaits(r, s, u, j, code, now);
    } else {
      CleanedGivesUp(r, s, u, j, code, now);
    }
  }

  /** A failed attempt that left chunk rows ends like one that left none: same job fate, same materials. */
  lemma FailureCleansUp(r: Rows, u: UserId, j: JobId, code: ErrorCode, attempt: Option<nat>, now: Time)
    requires UserActive(r, u) && Jobs.IsCurrentAttempt(r, u, j, attempt)
    requires MaterialAvailable(r, u, r.jobs[j].material) && !AlreadyAttempted(r.materials[r.jobs[j].material])
    ensures SameFate(Failed(r, u, j, code, attempt, false, now, now),
                     Jobs.MarkFailed(WithoutChunks(r, r.jobs[j].material), u, j, code, attempt, now), j)
  {
    var m := r.jobs[j].material;
    if Fences(r, u, j) {
      FencedFailure(r, u, j, code, now);
      assert Jobs.MarkFailed(r, u, j, code, attempt, now) == Jobs.FenceForCleanup(r, j, now);
    } else if r.materials[m].processing != Ready {
      assert WithoutChunks(r, m).materials == r.materials;
      assert WithoutChunks(r, m) == r;
    }
  }

  /** Recovering a job that left chunk rows gives the rows that recovering it without them gives. */
  lemma RecoveryCleansUp(r: Rows, u: UserId, j: JobId, olderThan: Time, now: Time)
    requires UserActive(r, u) && IsCandidate(r, u, j, now, olderThan) && r.jobs[j].status == Running
    requires MaterialAvailable(r, u, r.jobs[j].material) && Fences(r, u, j)
    ensures var s := RecoverOne(r, u, j, olderThan, false, now, now);
            var t := Jobs.RecoverJob(WithoutChunks(r, r.jobs[j].material), u, j, now, olderThan);
            s.jobs == t.jobs && s.materials == t.materials
  {
    var m := r.jobs[j].material;
    var s := Jobs.CleanupIndex(Jobs.FenceForCleanup(r, j, now), u, m);
    assert RecoverOne(r, u, j, olderThan, false, now, now) == Jobs.FinishCleanup(s, u, j, true, now);
    var t := Jobs.RecoverJob(WithoutChunks(r, m), u, j, now, olderThan);
    assert t.materials == Jobs.FinishCleanup(s, u, j, true, now).materials;
    assert t.jobs == Jobs.FinishCleanup(s, u, j, true, now).jobs;
  }
}
