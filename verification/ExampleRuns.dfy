/** Concrete runs: one that ends READY, and those that show where a rule stops holding. */
module ExampleRuns {
  import opened Options
  import opened Tables
  import opened Jobs
  import opened Materials
  import opened Lifecycle
  import opened Leases
  import opened Fencing
  import opened Objects
  import opened Availability

  const KEY: ObjectKey := ObjectKey(0, 0, 0, 0)
  const USERS: map<UserId, User> := map[0 := User(false, 10, 100)]

  function Row(storage: StorageStatus): Material {
    Material(0, 0, KEY, storage, false, 1, Some(7), Pending, None, None, NoMessage, {})
  }

  /** One reachable step. */
  lemma Step(w: World, e: Event) returns (v: World)
    requires Reachable(w)
    ensures Reachable(v) && v == Next(w, e)
  {
    ReachableNext(w, e);
    v := Next(w, e);
  }

  /** Material 0 is reserved, with its upload at `pc`. */
  function During(pc: UploadPc, objects: set<ObjectKey>, inFlight: set<ObjectKey>): World {
    Init(USERS).(
      rows := Rows(USERS, map[0 := Row(StorageStatus.Reserved)], map[], 1, 0, Start),
      uploads := map[0 := Upload(0, 0, KEY, pc)],
      locks := if Uploads(pc) then map[0 := UploadHolds(0)] else map[],
      objects := objects,
      inFlight := inFlight)
  }

  lemma SlotTaken()
    ensures var row := Row(StorageStatus.Reserved).(size := 0, hash := None);
            Reserve(Init(USERS).rows, 0, 0, 0) == Some(Rows(USERS, map[0 := row], map[], 1, 0, Start))
  {
    assert FilesUsed(Init(USERS).rows, 0, 0) == 0;
  }

  lemma MetadataCommitted(r: Rows)
    requires r == Rows(USERS, map[0 := Row(StorageStatus.Reserved).(size := 0, hash := None)], map[], 1, 0, Start)
    ensures CommitUpload(r, 0, 0, 0, 1, 7)
         == Some(Rows(USERS, map[0 := Row(StorageStatus.Reserved)], map[], 1, 0, Start))
  {
    assert StorageUsed(r, 0, 0) == 0 && StorageUsed(r, 0, 1) == 0;
    assert r.materials[0 := Row(StorageStatus.Reserved)] == map[0 := Row(StorageStatus.Reserved)];
  }

  lemma Reserved()
    ensures Reachable(During(Committed, {}, {}))
  {
    InitIsReachable(USERS);
    SlotTaken();
    var w := Step(Init(USERS), Storage(ReserveUpload(0, 0, 0)));
    MetadataCommitted(w.rows);
    w := Step(w, Uploading(0, CommitMetadata(1, 7)));
    assert w.uploads == map[0 := Upload(0, 0, KEY, Committed)];
    assert w == During(Committed, {}, {});
  }

  lemma UploadStarts()
    ensures Next(During(Committed, {}, {}), Uploading(0, StartPut)) == During(Putting, {}, {KEY})
  {
  }

  lemma WriteLands()
    ensures Next(During(Putting, {}, {KEY}), Storage(LandWrite(KEY))) == During(Putting, {KEY}, {KEY})
    ensures Next(During(Putting, {KEY}, {KEY}), Storage(SettleWrite(KEY))) == During(Putting, {KEY}, {})
    ensures Next(During(Putting, {KEY}, {}), Uploading(0, FinishPut)) == During(Stored, {KEY}, {})
  {
    assert During(Putting, {}, {KEY}).(objects := {KEY}) == During(Putting, {KEY}, {KEY});
    assert {KEY} - {KEY} == {};
    assert map[0 := Upload(0, 0, KEY, Putting)][0 := Upload(0, 0, KEY, Stored)] == map[0 := Upload(0, 0, KEY, Stored)];
  }

  /** The write to the object store has landed and settled. */
  lemma Written()
    ensures Reachable(During(Stored, {KEY}, {}))
  {
    Reserved();
    UploadStarts();
    WriteLands();
    ReachableNext(During(Committed, {}, {}), Uploading(0, StartPut));
    ReachableNext(During(Putting, {}, {KEY}), Storage(LandWrite(KEY)));
    ReachableNext(During(Putting, {KEY}, {KEY}), Storage(SettleWrite(KEY)));
    ReachableNext(During(Putting, {KEY}, {}), Uploading(0, FinishPut));
  }

  const PUBLISHED: Rows :=
    Rows(USERS, map[0 := Row(Available)], map[0 := Job(0, 0, Queued, 0, 3, 0, 0, 0, NoError, 0)], 1, 1,
         Then(Start, Enqueued(0)))

  lemma PublishedRows(r: Rows)
    requires r == Rows(USERS, map[0 := Row(StorageStatus.Reserved)], map[], 1, 0, Start)
    ensures Publish(r, 0, 0, 0) == Some(PUBLISHED)
  {
    assert PutMaterial(r, 0, Row(Available)).materials == map[0 := Row(Available)];
  }

  /** The object is stored and published, and job 0 waits for material 0. */
  lemma Published() returns (w: World)
    ensures Reachable(w) && w.attempts == map[] && w.nextLease == 0 && w.locks == map[] && w.rows == PUBLISHED
    ensures w.objects == {KEY} && w.inFlight == {}
  {
    Written();
    w := During(Stored, {KEY}, {});
    PublishedRows(w.rows);
    w := Step(w, Uploading(0, PublishMaterial(0, true)));
    assert w.locks == map[];
  }

  /** The part of the state the next example looks at: job 0, and the lease of its first attempt. */
  predicate Shows(w: World, mat: Material, job: Job, attempts: nat) {
    && w.rows.users == USERS
    && w.rows.materials == map[0 := mat]
    && w.rows.jobs == map[0 := job]
    && job.owner == 0 && job.material == 0
    && w.locks == map[]
    && w.nextLease == attempts
    && (attempts > 0 ==> 0 in w.attempts && w.attempts[0] == Attempt(0, 0, 0, 0, 1, Fetched, {}, {}))
  }

  /** The job is claimed at `now`, and that worker goes silent. */
  lemma Claimed(w: World, job: Job, n: nat, now: Time) returns (v: World)
    requires Reachable(w) && Shows(w, Row(Available), job, n)
    requires job.status == Queued && job.availableAt <= now && job.attemptCount < job.maxAttempts
    requires n == 0 ==> job.series == 0 && job.attemptCount == 0
    ensures Reachable(v)
    ensures Shows(v, Row(Available),
                  job.(status := Running, attemptCount := job.attemptCount + 1, error := NoError, updatedAt := now),
                  n + 1)
    ensures n in v.attempts
    ensures v.attempts[n] == Attempt(0, 0, 0, job.series, job.attemptCount + 1, Fetched, {}, {})
  {
    v := Step(w, Service(0, Claim(0, now)));
  }

  /** Recovery finds the running job silent for too long. */
  lemma Recovered(w: World, job: Job, n: nat, now: Time) returns (v: World)
    requires Reachable(w) && Shows(w, Row(Available), job, n)
    requires job.status == Running && job.updatedAt < now - 5
    ensures Reachable(v)
    ensures job.attemptCount < job.maxAttempts ==>
              Shows(v, Row(Available),
                    job.(status := Queued, progress := 0, availableAt := now, error := NoError, updatedAt := now), n)
    ensures job.attemptCount >= job.maxAttempts ==>
              Shows(v, Row(Available).(processing := ProcessingFailed, message := FailedMessage),
                    job.(status := JobFailed, error := WorkerInterrupted, updatedAt := now), n)
  {
    v := Step(w, Service(0, Recover(0, now, now - 5)));
  }

  lemma RetriedByUser(w: World, job: Job, n: nat, now: Time) returns (v: World)
    requires Reachable(w) && Shows(w, Row(Available).(processing := ProcessingFailed, message := FailedMessage), job, n)
    requires job.status == JobFailed && job.attemptCount == 3
    ensures Reachable(v)
    ensures Shows(v, Row(Available),
                  job.(status := Queued, attemptCount := 0, series := job.series + 1, progress := 0,
                       availableAt := now + 8, error := NoError, updatedAt := now), n)
  {
    assert Pow2(3) == 2 * Pow2(2) && Pow2(2) == 2 * Pow2(1) && Pow2(1) == 2;
    assert Backoff(3) == 8;
    v := Step(w, Service(0, Retry(0, now)));
  }

  /** One attempt goes silent with attempts left, and recovery queues the job again. */
  lemma Round(w: World, job: Job, n: nat, now: Time) returns (v: World, again: Job)
    requires Reachable(w) && Shows(w, Row(Available), job, n) && job.status == Queued && job.availableAt <= now
    requires job.attemptCount + 1 < job.maxAttempts && (n == 0 ==> job.series == 0 && job.attemptCount == 0)
    ensures Reachable(v) && Shows(v, Row(Available), again, n + 1)
    ensures again == job.(attemptCount := job.attemptCount + 1, progress := 0, availableAt := now + 10,
                          error := NoError, updatedAt := now + 10)
  {
    v := Claimed(w, job, n, now);
    v := Recovered(v, v.rows.jobs[0], n + 1, now + 10);
    again := v.rows.jobs[0];
  }

  /** Three attempts went silent, and recovery gave the job up. */
  lemma FirstSeriesLost() returns (w: World, job: Job)
    ensures Reachable(w) && job.status == JobFailed && job.attemptCount == 3 && job.maxAttempts == 3 && job.series == 0
    ensures Shows(w, Row(Available).(processing := ProcessingFailed, message := FailedMessage), job, 3)
  {
    w := Published();
    w, job := Round(w, PUBLISHED.jobs[0], 0, 0);
    w, job := Round(w, job, 1, 10);
    w := Claimed(w, job, 2, 20);
    w := Recovered(w, w.rows.jobs[0], 3, 30);
    job := w.rows.jobs[0];
  }

  /** A retry started series 1, and its first attempt is running. */
  lemma SecondSeries() returns (w: World, job: Job)
    ensures Reachable(w) && Shows(w, Row(Available), job, 4) && job.status == Running
    ensures job.attemptCount == 1 && job.maxAttempts == 3 && job.series == 1
    ensures 3 in w.attempts && w.attempts[3] == Attempt(0, 0, 0, 1, 1, Fetched, {}, {})
  {
    w, job := FirstSeriesLost();
    w := RetriedByUser(w, job, 3, 30);
    w := Claimed(w, w.rows.jobs[0], 3, 40);
    job := w.rows.jobs[0];
  }

  /** The attempt of the first series has stopped with an error. */
  lemma OldAttemptFails() returns (w: World)
    ensures Reachable(w) && w.rows.users == USERS && w.locks == map[] && 0 in w.attempts && 3 in w.attempts
    ensures w.attempts[0] == Attempt(0, 0, 0, 0, 1, ToFail(ProcessingFailedCode), {}, {})
    ensures w.attempts[3] == Attempt(0, 0, 0, 1, 1, Fetched, {}, {})
    ensures w.rows.materials == map[0 := Row(Available)] && 0 in w.rows.jobs
    ensures var job := w.rows.jobs[0];
            job.owner == 0 && job.material == 0 && job.status == Running && job.series == 1
            && job.attemptCount == 1 && job.maxAttempts == 3
  {
    var job: Job;
    w, job := SecondSeries();
    w := Step(w, Worker(0, Interrupt(true)));
  }

  /** A failure call with the number of the running attempt sends its job back to the queue. */
  lemma FailureRequeues(r: Rows, a: Attempt, now: Time)
    requires a == Attempt(0, 0, 0, 0, 1, ToFail(ProcessingFailedCode), {}, {})
    requires r.materials == map[0 := Row(Available)] && 0 in r.jobs
    requires var job := r.jobs[0];
             job.owner == 0 && job.material == 0 && job.status == Running
             && job.attemptCount == 1 && job.maxAttempts == 3
    ensures var s := ApplyMark(r, a, now); 0 in s.jobs && s.jobs[0].status == Queued
  {
    var s := DropChunks(r, 0, {});
    assert s.jobs == r.jobs && s.materials[0].chunks == {};
    assert MarkFailed(s, 0, 0, ProcessingFailedCode, Some(1), now) == WaitForRetry(s, 0, ProcessingFailedCode, now);
  }

  /**
   The attempt fence does not reach across a retry: an attempt of the first series whose
   number comes round again takes the job away from the attempt that is running it.
   */
  lemma OldSeriesIsNotFenced() returns (w: World)
    ensures Reachable(w) && 0 in w.attempts && 3 in w.attempts && 0 in w.rows.jobs
    ensures w.attempts[0].job == 0 && w.attempts[3].job == 0
    ensures w.attempts[0].series == 0 && w.attempts[3].series == 1
    ensures w.rows.jobs[0].series == 1 && w.rows.jobs[0].status == Running
    ensures var v := Next(w, Worker(0, Mark(41)));
            0 in v.rows.jobs && v.rows.jobs[0].status == Queued
  {
    w := OldAttemptFails();
    FailureRequeues(w.rows, w.attempts[0], 41);
  }

  // ---------------------------------------------------------------- a run that ends READY

  /** Attempt 1 of job 0 runs, with lease 0, at `pc`. */
  predicate Runs(w: World, mat: Material, pc: AttemptPc) {
    && w.rows.users == USERS && w.rows.materials == map[0 := mat] && w.locks == map[]
    && OwnsJob(w.rows, 0, 0) && w.rows.jobs[0].material == 0
    && w.rows.jobs[0].status == Running && w.rows.jobs[0].attemptCount == 1
    && 0 in w.attempts && w.attempts[0] == Attempt(0, 0, 0, 0, 1, pc, {}, {})
  }

  lemma LoadPasses(w: World) returns (v: World)
    requires Reachable(w) && Runs(w, Row(Available), Fetched)
    ensures Reachable(v) && Runs(v, Row(Available), Starting)
  {
    v := Step(w, Worker(0, Load));
  }

  lemma CheckPasses(w: World, mat: Material, pc: AttemptPc, next: AttemptPc) returns (v: World)
    requires Reachable(w) && Runs(w, mat, pc) && Checks(pc)
    requires next == AfterCheck(Attempt(0, 0, 0, 0, 1, pc, {}, {}))
    ensures Reachable(v) && Runs(v, mat, next)
  {
    v := Step(w, Worker(0, Check));
  }

  const LEASED: Material := Leased(Row(Available), 0, LEASE_DURATION)

  lemma LeaseTaken(w: World) returns (v: World)
    requires Reachable(w) && Runs(w, Row(Available), Downloaded)
    ensures Reachable(v) && Runs(v, LEASED, Parsing)
  {
    v := Step(w, Worker(0, WriteLease(0)));
    assert map[0 := Row(Available)][0 := LEASED] == map[0 := LEASED];
  }

  lemma NothingToIndex(w: World) returns (v: World)
    requires Reachable(w) && Runs(w, LEASED, Chunking)
    ensures Reachable(v) && Runs(v, LEASED, Indexed)
  {
    v := Step(w, Worker(0, AddIntent({})));
  }

  const READY: Material := Row(Available).(processing := Ready)

  lemma MadeReady(w: World) returns (v: World)
    requires Reachable(w) && Runs(w, LEASED, Finishing)
    ensures Reachable(v) && Runs(v, READY, Returned)
  {
    v := Step(w, Worker(0, SetReady(false, true)));
    assert map[0 := LEASED][0 := READY] == map[0 := READY];
  }

  lemma SawItReady(w: World) returns (v: World)
    requires Reachable(w) && Runs(w, READY, Returned)
    ensures Reachable(v) && Runs(v, READY, Refreshed(true))
  {
    v := Step(w, Worker(0, Refresh));
  }

  lemma StillOwnsJob(w: World) returns (v: World)
    requires Reachable(w) && Runs(w, READY, Refreshed(true))
    ensures Reachable(v) && Runs(v, READY, ToSucceed)
  {
    v := Step(w, Worker(0, Observe));
  }

  /** The success call of the running attempt. */
  lemma SuccessCall(r: Rows, a: Attempt, now: Time)
    requires a == Attempt(0, 0, 0, 0, 1, ToSucceed, {}, {}) && r.materials == map[0 := READY]
    requires OwnsJob(r, 0, 0) && r.jobs[0].status == Running && r.jobs[0].attemptCount == 1
    ensures var s := ApplyMark(r, a, now);
            s.materials == map[0 := READY] && OwnsJob(s, 0, 0) && s.jobs[0].status == Succeeded
  {
    var s := DropChunks(r, 0, {});
    assert READY.(chunks := READY.chunks - {}) == READY && map[0 := READY][0 := READY] == map[0 := READY];
    assert s.jobs == r.jobs && s.materials == r.materials;
    assert ApplyMark(r, a, now) == Finish(s, 0, now);
  }

  lemma SuccessMarked(w: World) returns (v: World)
    requires Reachable(w) && Runs(w, READY, ToSucceed)
    ensures Reachable(v) && v.rows.materials == map[0 := READY]
    ensures OwnsJob(v.rows, 0, 0) && v.rows.jobs[0].status == Succeeded
  {
    SuccessCall(w.rows, w.attempts[0], 9);
    v := Step(w, Worker(0, Mark(9)));
  }

  lemma FirstClaim() returns (w: World)
    ensures Reachable(w) && Runs(w, Row(Available), Fetched)
  {
    w := Published();
    w := Claimed(w, w.rows.jobs[0], 0, 0);
  }

  lemma ReachesLease() returns (w: World)
    ensures Reachable(w) && Runs(w, LEASED, Parsing)
  {
    w := FirstClaim();
    w := LoadPasses(w);
    w := CheckPasses(w, Row(Available), Starting, Leasing);
    w := CheckPasses(w, Row(Available), Leasing, Downloaded);
    w := LeaseTaken(w);
  }

  lemma ReachesIndexed() returns (w: World)
    ensures Reachable(w) && Runs(w, LEASED, Indexed)
  {
    w := ReachesLease();
    w := CheckPasses(w, LEASED, Parsing, Chunking);
    w := NothingToIndex(w);
  }

  lemma ReachesFinish() returns (w: World)
    ensures Reachable(w) && Runs(w, LEASED, Finishing)
  {
    w := ReachesIndexed();
    w := CheckPasses(w, LEASED, Indexed, Confirming);
    w := CheckPasses(w, LEASED, Confirming, Finishing);
  }

  /** The pipeline gets somewhere: one upload and one attempt make a material READY and its job succeed. */
  lemma ReachesReady() returns (w: World)
    ensures Reachable(w) && w.rows.materials == map[0 := READY]
    ensures OwnsJob(w.rows, 0, 0) && w.rows.jobs[0].status == Succeeded
  {
    w := ReachesFinish();
    w := MadeReady(w);
    w := SawItReady(w);
    w := StillOwnsJob(w);
    w := SuccessMarked(w);
  }

  // ---------------------------------------------------------------- an available row without an object

  /** Material 0 is available; who holds the user row, and what is stored. */
  predicate Stands(w: World, locks: map<UserId, Holder>, objects: set<ObjectKey>) {
    && w.rows.users == USERS && w.rows.materials == map[0 := Row(Available)]
    && w.locks == locks && w.objects == objects && w.inFlight == {}
  }

  lemma AccountLocked(w: World) returns (v: World)
    requires Reachable(w) && Stands(w, map[], {KEY})
    ensures Reachable(v) && Stands(v, map[0 := AccountHolds({})], {KEY})
  {
    v := Step(w, Storage(LockAccount(0)));
  }

  lemma ObjectRemoved(w: World) returns (v: World)
    requires Reachable(w) && Stands(w, map[0 := AccountHolds({})], {KEY})
    ensures Reachable(v) && Stands(v, map[0 := AccountHolds({0})], {})
  {
    v := Step(w, Storage(CleanLocked(0, 0)));
    assert 0 in UserMaterials(w.rows, 0) && {KEY} - {KEY} == {};
    assert {} + {0} == {0};
    assert map[0 := AccountHolds({})][0 := AccountHolds({0})] == map[0 := AccountHolds({0})];
  }

  lemma DeletionFailed(w: World) returns (v: World)
    requires Reachable(w) && Stands(w, map[0 := AccountHolds({0})], {})
    ensures Reachable(v) && Stands(v, map[], {})
  {
    v := Step(w, Storage(FailAccount(0, 1)));
    assert map[0 := AccountHolds({0})] - {0} == map[];
  }

  /** An account deletion removes the object and then fails: the row stays AVAILABLE without it. */
  lemma AvailableWithoutObject() returns (w: World)
    ensures Reachable(w) && IsAvailable(w, 0) && !HasObject(w, 0) && w.locks == map[]
  {
    w := Published();
    w := AccountLocked(w);
    w := ObjectRemoved(w);
    w := DeletionFailed(w);
  }
}
