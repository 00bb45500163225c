/**
 The material endpoints, the worker's row updates, storage recovery and account deletion,
 one method per transaction. Each keeps rows that are in order so, says what it leaves on
 the tables, and is proved equal to its transaction in `Materials`.
 */
module MaterialService {
  import opened Options
  import opened Tables
  import opened Histories
  import opened RowInvariants
  import opened MaterialRows
  import opened Database
  import Jobs
  import JobService
  import Materials
  import Objects
  import Quotas

  // ---------------------------------------------------------------- upload

  lemma ReserveTakesSlot(r: Rows, u: UserId, c: CourseId, objectId: nat)
    requires Materials.Reserve(r, u, c, objectId).Some?
    ensures var s := Materials.Reserve(r, u, c, objectId).value;
            Materials.FilesUsed(s, u, s.nextMaterial) == Materials.FilesUsed(r, u, r.nextMaterial) + 1
  {
    var s, m := Materials.Reserve(r, u, c, objectId).value, r.nextMaterial;
    Quotas.NewRowAbove(r, m, s.materials[m], u, m);
    Quotas.SameUsage(PutMaterial(r, m, s.materials[m]), s, u, m);
  }

  /** A slot is taken exactly while the user has one left, and no other row changes. */
  method ReserveUpload(db: Session, u: UserId, c: CourseId, objectId: nat) returns (reserved: Option<MaterialId>)
    modifies db
    ensures var outcome := Materials.Reserve(old(db.Snapshot()), u, c, objectId);
            && db.Snapshot() == outcome.GetOr(old(db.Snapshot()))
            && reserved == if outcome.Some? then Some(old(db.nextMaterial)) else None
    ensures Preserves(old(db.Snapshot()), db.Snapshot())
    ensures old(Quotas.QuotaOk(db.Snapshot())) ==> Quotas.QuotaOk(db.Snapshot())
    ensures reserved.Some? <==>
            old(db.IsActive(u) && |Quotas.CountedRows(db.Snapshot(), u, db.nextMaterial)| < db.users[u].fileLimit)
    ensures if reserved.None? then db.Snapshot() == old(db.Snapshot())
            else && db.jobs == old(db.jobs) && db.users == old(db.users) && db.nextMaterial == reserved.value + 1
                 && db.materials == old(db.materials)[reserved.value :=
                      Material(u, c, ObjectKey(u, c, reserved.value, objectId), Reserved, false, 0, None,
                               Pending, None, None, NoMessage, {})]
                 && Materials.FilesUsed(db.Snapshot(), u, db.nextMaterial)
                    == Materials.FilesUsed(old(db.Snapshot()), u, old(db.nextMaterial)) + 1
    ensures old(db.Valid()) ==> forall k | k in old(db.materials) ::
              k in db.materials && db.materials[k] == old(db.materials)[k]
  {
    ghost var r := db.Snapshot();
    Quotas.UsageIsSum(r, u, r.nextMaterial);
    if Materials.Reserve(r, u, c, objectId).Some? {
      ReserveTakesSlot(r, u, c, objectId);
      if Quotas.QuotaOk(r) {
        Quotas.ReserveKeepsQuota(r, u, c, objectId);
      }
    }
    forall n | RowsOk(r, n) ensures Keeps(r, Materials.Reserve(r, u, c, objectId).GetOr(r), n) {
      QuietRefl(r, n);
      if Materials.Reserve(r, u, c, objectId).Some? {
        ReserveOk(r, u, c, objectId, n);
      }
    }
    if !db.IsActive(u) {
      return None;
    }
    var filesUsed := CountFiles(db, u);
    if filesUsed + 1 > db.users[u].fileLimit {
      return None;
    }
    var m := db.nextMaterial;
    db.nextMaterial := m + 1;
    var key := ObjectKey(u, c, m, objectId);
    db.materials := db.materials[m := Material(u, c, key, Reserved, false, 0, None, Pending, None, None, NoMessage, {})];
    return Some(m);
  }

  /** Each of the user's rows that is no tombstone, once. */
  method CountFiles(db: Session, u: UserId) returns (count: nat)
    ensures count == Materials.FilesUsed(db.Snapshot(), u, db.nextMaterial)
    ensures count == |Quotas.CountedRows(db.Snapshot(), u, db.nextMaterial)|
  {
    count := 0;
    for m := 0 to db.nextMaterial
      invariant count == Materials.FilesUsed(db.Snapshot(), u, m)
    {
      if db.HasMaterial(u, m) && db.materials[m].storage != Deleted {
        count := count + 1;
      }
    }
    Quotas.UsageIsSum(db.Snapshot(), u, db.nextMaterial);
  }

  method SumSizes(db: Session, u: UserId) returns (sum: nat)
    ensures sum == Materials.StorageUsed(db.Snapshot(), u, db.nextMaterial)
    ensures sum == Quotas.SizeSum(db.Snapshot(), Quotas.CountedRows(db.Snapshot(), u, db.nextMaterial))
  {
    sum := 0;
    for m := 0 to db.nextMaterial
      invariant sum == Materials.StorageUsed(db.Snapshot(), u, m)
    {
      if db.HasMaterial(u, m) && db.materials[m].storage != Deleted {
        sum := sum + db.materials[m].size;
      }
    }
    Quotas.UsageIsSum(db.Snapshot(), u, db.nextMaterial);
  }

  /** What the row needs for its size and hash to be written. */
  ghost predicate MayCommit(r: Rows, u: UserId, c: CourseId, m: MaterialId, size: nat, hash: Hash) {
    && UserActive(r, u) && OwnsMaterial(r, u, m) && r.materials[m].storage in {Reserved, Available}
    && Quotas.SizeSum(r, Quotas.CountedRows(r, u, r.nextMaterial)) + size <= r.users[u].storageLimit
    && forall k | k in r.materials && k != m && r.materials[k].storage in {Reserved, Available} ::
         !(r.materials[k].owner == u && r.materials[k].course == c && r.materials[k].hash == Some(hash))
  }

  /** What writing size and hash leaves: one row changed, and the bytes used changed by it. */
  ghost predicate Commits(r: Rows, s: Rows, u: UserId, m: MaterialId, size: nat, hash: Hash) {
    && m in r.materials && LeavesMaterial(r, s, m, r.materials[m].(size := size, hash := Some(hash)))
    && (m < r.nextMaterial ==>
          Quotas.SizeSum(s, Quotas.CountedRows(s, u, s.nextMaterial)) + r.materials[m].size
          == Quotas.SizeSum(r, Quotas.CountedRows(r, u, r.nextMaterial)) + size)
  }

  lemma CommitOutcome(r: Rows, u: UserId, c: CourseId, m: MaterialId, size: nat, hash: Hash)
    ensures Materials.CommitUpload(r, u, c, m, size, hash).Some? <==> MayCommit(r, u, c, m, size, hash)
    ensures Materials.CommitUpload(r, u, c, m, size, hash).Some? ==>
              Commits(r, Materials.CommitUpload(r, u, c, m, size, hash).value, u, m, size, hash)
  {
    Quotas.UsageIsSum(r, u, r.nextMaterial);
    assert OwnsMaterial(r, u, m) ==> (Materials.Hidden(r.materials[m]) <==> !Materials.Live(r.materials[m]));
    if Materials.CommitUpload(r, u, c, m, size, hash).Some? {
      var s := Materials.CommitUpload(r, u, c, m, size, hash).value;
      Quotas.UsageIsSum(s, u, s.nextMaterial);
      if m < r.nextMaterial {
        Quotas.UsageChanges(r, m, s.materials[m], u, r.nextMaterial);
      }
    }
  }

  /** The bytes written fit the limit, and no other live material of the course has the content. */
  method CommitUpload(db: Session, u: UserId, c: CourseId, m: MaterialId, size: nat, hash: Hash) returns (ok: bool)
    modifies db
    ensures var outcome := Materials.CommitUpload(old(db.Snapshot()), u, c, m, size, hash);
            ok == outcome.Some? && db.Snapshot() == outcome.GetOr(old(db.Snapshot()))
    ensures Preserves(old(db.Snapshot()), db.Snapshot())
    ensures old(Quotas.QuotaOk(db.Snapshot()) && (m in db.materials ==> db.materials[m].course == c)) ==>
              Quotas.QuotaOk(db.Snapshot())
    ensures ok <==> old(MayCommit(db.Snapshot(), u, c, m, size, hash))
    ensures if !ok then db.Snapshot() == old(db.Snapshot())
            else && Commits(old(db.Snapshot()), db.Snapshot(), u, m, size, hash)
                 && Materials.StorageUsed(db.Snapshot(), u, db.nextMaterial) <= db.users[u].storageLimit
                 && !Materials.IsDuplicate(db.Snapshot(), u, c, hash, m)
  {
    ghost var r := db.Snapshot();
    forall n | RowsOk(r, n) {
      CommitUploadOk(r, u, c, m, size, hash, n);
    }
    CommitOutcome(r, u, c, m, size, hash);
    if Materials.CommitUpload(r, u, c, m, size, hash).Some? {
      Quotas.SizeAdds(r, m, size, Some(hash), u, r.nextMaterial);
      if Quotas.QuotaOk(r) && r.materials[m].course == c {
        Quotas.CommitKeepsQuota(r, u, c, m, size, hash);
      }
    }
    if !db.IsActive(u) {
      return false;
    }
    var used := SumSizes(db, u);
    if used + size > db.users[u].storageLimit {
      return false;
    }
    if !db.HasMaterial(u, m) || db.materials[m].storage == Deleting || db.materials[m].storage == Deleted {
      return false;
    }
    if exists k | k in db.materials :: k != m && Materials.SameContent(db.materials[k], u, c, hash) {
      return false;
    }
    var mat := db.materials[m];
    mat := mat.(size := size);
    db.materials := db.materials[m := mat.(hash := Some(hash))];
    return true;
  }

  /** The object is available and its job exists from the same commit on, or neither. */
  method Publish(db: Session, u: UserId, m: MaterialId, now: Time) returns (ok: bool)
    modifies db
    ensures var outcome := Materials.Publish(old(db.Snapshot()), u, m, now);
            ok == outcome.Some? && db.Snapshot() == outcome.GetOr(old(db.Snapshot()))
    ensures Preserves(old(db.Snapshot()), db.Snapshot())
    ensures ok <==> old(db.IsActive(u) && db.HasMaterial(u, m))
    ensures ok ==> && db.materials
                      == old(db.materials)[m := old(db.materials)[m].(storage := Available, uncertain := false)]
                   && exists j :: Jobs.IsJobOf(db.Snapshot(), u, m, true, j)
    ensures !ok ==> db.Snapshot() == old(db.Snapshot())
  {
    forall n | RowsOk(db.Snapshot(), n) {
      PublishOk(db.Snapshot(), u, m, now, n);
    }
    if !db.HasMaterial(u, m) {
      return false;
    }
    var before := db.materials;
    db.materials := before[m := before[m].(uncertain := false, storage := Available)];
    ok := JobService.CreateMaterialJob(db, u, m, now);
    if !ok {
      db.materials := before;
    }
  }

  /** The row of `m` and its jobs are gone, and nothing else. */
  predicate OnlyRemoves(r: Rows, s: Rows, m: MaterialId) {
    && s.users == r.users && s.nextMaterial == r.nextMaterial && s.nextJob == r.nextJob
    && s.materials == r.materials - {m}
    && (forall j | j in s.jobs :: j in r.jobs && s.jobs[j] == r.jobs[j] && r.jobs[j].material != m)
    && (forall j | j in r.jobs && r.jobs[j].material != m :: j in s.jobs)
  }

  /** Only a reservation is discarded; one whose object may exist stays, hidden, under its key. */
  method DiscardReservation(db: Session, m: MaterialId, keep: bool, uncertain: bool)
    modifies db
    ensures db.Snapshot() == if keep then Materials.KeepReservation(old(db.Snapshot()), m, uncertain)
                             else Materials.DiscardReservation(old(db.Snapshot()), m)
    ensures Preserves(old(db.Snapshot()), db.Snapshot())
    ensures Objects.StorageMoves(old(db.Snapshot()), db.Snapshot())
    ensures if !old(Materials.IsReserved(db.Snapshot(), m)) then db.Snapshot() == old(db.Snapshot())
            else if !keep then OnlyRemoves(old(db.Snapshot()), db.Snapshot(), m)
            else LeavesMaterial(old(db.Snapshot()), db.Snapshot(), m,
                                old(db.materials[m]).(storage := Deleting, message := StorageCleanupPending,
                                                      uncertain := uncertain || old(db.materials[m].uncertain)))
  {
    forall n | RowsOk(db.Snapshot(), n) {
      DiscardsOk(db.Snapshot(), m, uncertain, n);
    }
    if m !in db.materials || db.materials[m].storage != Reserved {
      return;
    }
    if !keep {
      RemoveRows(db, {m});
      return;
    }
    var mat := db.materials[m];
    mat := mat.(storage := Deleting);
    if uncertain {
      mat := mat.(uncertain := true);
    }
    db.materials := db.materials[m := mat.(message := StorageCleanupPending)];
  }

  /** A published object whose job could not be created is marked for removal; its slot stays taken. */
  method MarkForCompensation(db: Session, u: UserId, m: MaterialId) returns (ok: bool)
    modifies db
    ensures var outcome := Materials.Compensate(old(db.Snapshot()), u, m);
            ok == outcome.Some? && db.Snapshot() == outcome.GetOr(old(db.Snapshot()))
    ensures Preserves(old(db.Snapshot()), db.Snapshot())
    ensures Objects.StorageMoves(old(db.Snapshot()), db.Snapshot())
    ensures ok <==> old(db.IsActive(u) && db.HasMaterial(u, m) && db.materials[m].storage in {Reserved, Available})
    ensures if !ok then db.Snapshot() == old(db.Snapshot())
            else && LeavesMaterial(old(db.Snapshot()), db.Snapshot(), m,
                                   old(db.materials[m]).(storage := Deleting, message := StorageCleanupPending))
                 && (m < db.nextMaterial ==> m in Quotas.CountedRows(db.Snapshot(), u, db.nextMaterial))
  {
    forall n | RowsOk(db.Snapshot(), n) {
      CompensateOk(db.Snapshot(), u, m, n);
    }
    if !db.IsActive(u) || !db.HasMaterial(u, m) {
      return false;
    }
    var mat := db.materials[m];
    if mat.storage != Reserved && mat.storage != Available {
      return false;
    }
    mat := mat.(storage := Deleting);
    db.materials := db.materials[m := mat.(message := StorageCleanupPending)];
    return true;
  }

  /** Material rows go, and with each its jobs. */
  method RemoveRows(db: Session, ms: set<MaterialId>)
    modifies db
    ensures db.Snapshot() == RemoveMaterials(old(db.Snapshot()), ms)
  {
    db.materials := db.materials - ms;
    db.jobs := map j | j in db.jobs && db.jobs[j].material !in ms :: db.jobs[j];
  }

  // ---------------------------------------------------------------- processing

  /** The attempt owns an available row until its lease runs out or is taken away; no other lease is left on it. */
  method TakeLease(db: Session, u: UserId, j: JobId, number: nat, m: MaterialId, l: LeaseId, now: Time)
    modifies db
    ensures db.Snapshot() == Materials.TakeLease(old(db.Snapshot()), u, j, number, m, l, now)
    ensures forall n | RowsOk(old(db.Snapshot()), n) && l < n && !WasWritten(old(db.history), l) ::
              RowsOk(db.Snapshot(), n)
    ensures if old(Jobs.IsCurrentAttempt(db.Snapshot(), u, j, Some(number)) && m in db.materials)
            then && Leaves(old(db.Snapshot()), db.Snapshot(), j, old(db.jobs)[j].(progress := 25, updatedAt := now),
                           m, old(db.materials[m]).(processing := Processing, lease := Some(l),
                                                    leaseExpires := Some(now + Materials.LEASE_DURATION)))
                 && Jobs.IsCurrentAttempt(db.Snapshot(), u, j, Some(number))
                 && (forall k | k != l :: !Materials.HoldsLease(db.Snapshot(), m, k))
                 && (MaterialAvailable(db.Snapshot(), u, m) ==> forall t ::
                       Materials.OwnsProcessing(db.Snapshot(), u, m, l, {}, t) <==> t < now + Materials.LEASE_DURATION)
            else db.Snapshot() == old(db.Snapshot())
  {
    forall n | RowsOk(db.Snapshot(), n) && l < n && !WasWritten(db.history, l) {
      TakeLeaseOk(db.Snapshot(), u, j, number, m, l, now, n);
    }
    var lost := JobService.IsCancelled(db, u, j, Some(number));
    if lost || m !in db.materials {
      return;
    }
    var mat := db.materials[m];
    mat := mat.(processing := Processing);
    mat := mat.(leaseExpires := Some(now + Materials.LEASE_DURATION));
    db.materials := db.materials[m := mat.(lease := Some(l))];
    JobService.UpdateProgress(db, u, j, 25, Some(number), now);
    db.Note(Wrote(m, l));
  }

  method PersistIntent(db: Session, m: MaterialId, ids: set<ChunkId>)
    modifies db
    ensures db.Snapshot() == Materials.PersistIntent(old(db.Snapshot()), m, ids)
    ensures Preserves(old(db.Snapshot()), db.Snapshot())
    ensures if m in old(db.materials)
            then LeavesMaterial(old(db.Snapshot()), db.Snapshot(), m,
                                old(db.materials[m]).(chunks := old(db.materials[m].chunks) + ids))
            else db.Snapshot() == old(db.Snapshot())
  {
    forall n | RowsOk(db.Snapshot(), n) {
      PersistIntentOk(db.Snapshot(), n, m, ids);
    }
    if m in db.materials {
      db.materials := db.materials[m := db.materials[m].(chunks := db.materials[m].chunks + ids)];
    }
  }

  /** The available row is being processed under this lease. */
  predicate HasLease(mat: Material, l: LeaseId) {
    mat.storage == Available && mat.processing == Processing && mat.lease == Some(l)
  }

  /** A lease makes its material READY once: afterwards no lease is left on the row. */
  method MarkProcessingAttemptReady(db: Session, m: MaterialId, l: LeaseId, j: JobId) returns (marked: bool)
    modifies db
    ensures db.Snapshot() == Materials.MarkReady(old(db.Snapshot()), m, l, j)
    ensures marked == Materials.HoldsLease(old(db.Snapshot()), m, l)
    ensures marked <==> old(m in db.materials && HasLease(db.materials[m], l))
    ensures forall n | RowsOk(old(db.Snapshot()), n) && l < n && j < old(db.nextJob) && !WasCancelled(old(db.history), j)
                       && (forall k | k in old(db.materials) && k != m :: old(db.materials)[k].lease != Some(l)) ::
              RowsOk(db.Snapshot(), n)
    ensures if marked
            then && LeavesMaterial(old(db.Snapshot()), db.Snapshot(), m,
                                   old(db.materials[m]).(processing := Ready, lease := None, leaseExpires := None))
                 && WasReadied(db.history, l) && forall k :: !Materials.HoldsLease(db.Snapshot(), m, k)
            else db.Snapshot() == old(db.Snapshot())
  {
    forall n | RowsOk(db.Snapshot(), n) && l < n && j < db.nextJob && !WasCancelled(db.history, j)
               && Materials.HoldsLease(db.Snapshot(), m, l)
               && (forall k | k in db.materials && k != m :: db.materials[k].lease != Some(l))
    {
      MarkReadyRowsOk(db.Snapshot(), m, l, j, n);
    }
    if m !in db.materials || db.materials[m].storage != Available
       || db.materials[m].processing != Processing || db.materials[m].lease != Some(l)
    {
      return false;
    }
    var mat := db.materials[m];
    mat := mat.(processing := Ready);
    db.materials := db.materials[m := mat.(leaseExpires := None, lease := None)];
    db.Note(Readied(m, l, j));
    return true;
  }

  /** Owning the row is what the READY update asks for, and a live lease and unchanged chunk rows besides. */
  method ReloadOwnedAttempt(db: Session, u: UserId, m: MaterialId, l: LeaseId, ids: set<ChunkId>, now: Time)
    returns (owned: bool)
    ensures owned == Materials.OwnsProcessing(db.Snapshot(), u, m, l, ids, now)
    ensures owned <==> && Materials.HoldsLease(db.Snapshot(), m, l) && db.HasMaterial(u, m)
                       && HasLease(db.materials[m], l)
                       && db.materials[m].leaseExpires.Some? && db.materials[m].leaseExpires.value > now
                       && (ids == {} || db.materials[m].chunks == ids)
    ensures owned ==> && !Materials.NeedsRecovery(db.Snapshot(), m, now)
                      && forall k | k != l :: !Materials.OwnsProcessing(db.Snapshot(), u, m, k, ids, now)
  {
    if !db.HasMaterial(u, m) {
      return false;
    }
    var mat := db.materials[m];
    if mat.storage != Available || mat.processing != Processing || mat.lease != Some(l)
       || !LeaseActive(mat.leaseExpires, now)
    {
      return false;
    }
    if ids == {} {
      return true;
    }
    return mat.chunks == ids;
  }

  /** The attempt gives its lease up; what it may have indexed is left to the recovery pass. */
  method FailIndexingIntent(db: Session, m: MaterialId, l: LeaseId) returns (owned: bool)
    modifies db
    ensures db.Snapshot() == Materials.FailIntent(old(db.Snapshot()), m, l)
    ensures owned == Materials.HoldsLease(old(db.Snapshot()), m, l)
    ensures owned <==> old(m in db.materials && HasLease(db.materials[m], l))
    ensures Preserves(old(db.Snapshot()), db.Snapshot())
    ensures if owned
            then && LeavesMaterial(old(db.Snapshot()), db.Snapshot(), m,
                                   old(db.materials[m]).(processing := ProcessingFailed, lease := None,
                                                         leaseExpires := None, message := IndexCleanupPending))
                 && (forall k :: !Materials.HoldsLease(db.Snapshot(), m, k))
                 && (db.materials[m].chunks != {} ==> forall t :: Materials.RecoverableMaterial(db.materials[m], t))
            else db.Snapshot() == old(db.Snapshot())
  {
    forall n | RowsOk(db.Snapshot(), n) {
      FailIntentOk(db.Snapshot(), n, m, l);
    }
    if m !in db.materials || db.materials[m].storage != Available
       || db.materials[m].processing != Processing || db.materials[m].lease != Some(l)
    {
      return false;
    }
    db.Settle(m, ProcessingFailed, IndexCleanupPending);
    return true;
  }

  // ---------------------------------------------------------------- delete and reprocess

  predicate HasActiveJob(r: Rows, u: UserId, m: MaterialId) {
    exists j | j in r.jobs ::
      r.jobs[j].owner == u && r.jobs[j].material == m && r.jobs[j].status in {Queued, Running}
  }

  /** The row once the request has cancelled the jobs of the material. */
  function AfterCancelling(r: Rows, u: UserId, m: MaterialId): Material
    requires m in r.materials
  {
    if HasActiveJob(r, u, m)
    then r.materials[m].(processing := ProcessingFailed, lease := None, leaseExpires := None,
                         message := CancelledMessage)
    else r.materials[m]
  }

  /** The active jobs of the material are cancelled, and no other job differs. */
  predicate CancelsJobs(r: Rows, s: Rows, u: UserId, m: MaterialId, now: Time) {
    && s.users == r.users && s.nextMaterial == r.nextMaterial && s.nextJob == r.nextJob
    && s.jobs == map j | j in r.jobs ::
         if r.jobs[j].owner == u && r.jobs[j].material == m && r.jobs[j].status in {Queued, Running}
         then r.jobs[j].(status := Cancelled, error := ProcessingCancelledCode, updatedAt := now)
         else r.jobs[j]
  }

  lemma CancelsJobsFirst(r: Rows, u: UserId, m: MaterialId, now: Time)
    requires OwnsMaterial(r, u, m)
    ensures var s := Jobs.CancelJobsForMaterial(r, u, m, now);
            && CancelsJobs(r, s, u, m, now)
            && s.materials == r.materials[m := AfterCancelling(r, u, m)]
  {
    var s := Jobs.CancelJobsForMaterial(r, u, m, now);
    JobService.CancelsAllOfThem(r, u, m, now);
    if !HasActiveJob(r, u, m) {
      assert r.materials[m := r.materials[m]] == r.materials;
    }
  }

  /** Nothing can still write the object, and nobody but a job of this material is processing it. */
  predicate MayDelete(r: Rows, u: UserId, m: MaterialId, now: Time) {
    && UserActive(r, u) && OwnsMaterial(r, u, m)
    && r.materials[m].storage in {Available, Deleting} && !r.materials[m].uncertain
    && (BeingProcessed(r.materials[m], now) ==> HasActiveJob(r, u, m))
  }

  predicate Hides(r: Rows, s: Rows, u: UserId, m: MaterialId, now: Time) {
    && m in r.materials && CancelsJobs(r, s, u, m, now)
    && s.materials
       == r.materials[m := AfterCancelling(r, u, m).(storage := Deleting, lease := None, leaseExpires := None,
                                                     message := StorageCleanupPending)]
  }

  lemma DeleteOutcome(r: Rows, u: UserId, m: MaterialId, now: Time)
    ensures Materials.BeginDelete(r, u, m, now).Some? <==> MayDelete(r, u, m, now)
    ensures Materials.BeginDelete(r, u, m, now).Some? ==>
              Hides(r, Materials.BeginDelete(r, u, m, now).value, u, m, now)
  {
    if OwnsMaterial(r, u, m) {
      CancelsJobsFirst(r, u, m, now);
    }
  }

  /** A refused request rolls back the cancellations that came before it. */
  method BeginDelete(db: Session, u: UserId, m: MaterialId, now: Time) returns (ok: bool)
    modifies db
    ensures var outcome := Materials.BeginDelete(old(db.Snapshot()), u, m, now);
            ok == outcome.Some? && db.Snapshot() == outcome.GetOr(old(db.Snapshot()))
    ensures Preserves(old(db.Snapshot()), db.Snapshot())
    ensures ok ==> && Materials.Hidden(db.materials[m]) && (forall l :: !Materials.HoldsLease(db.Snapshot(), m, l))
                   && forall j :: !Jobs.IsJobOf(db.Snapshot(), u, m, true, j)
    ensures ok <==> old(MayDelete(db.Snapshot(), u, m, now))
    ensures if ok then Hides(old(db.Snapshot()), db.Snapshot(), u, m, now) else db.Snapshot() == old(db.Snapshot())
  {
    DeleteOutcome(db.Snapshot(), u, m, now);
    forall n | RowsOk(db.Snapshot(), n)
      ensures Keeps(db.Snapshot(), Materials.BeginDelete(db.Snapshot(), u, m, now).GetOr(db.Snapshot()), n)
    {
      QuietRefl(db.Snapshot(), n);
      if Materials.BeginDelete(db.Snapshot(), u, m, now).Some? {
        BeginDeleteOk(db.Snapshot(), u, m, now, n);
      }
    }
    if !db.IsActive(u) || !db.HasMaterial(u, m) || db.materials[m].storage == Deleted {
      return false;
    }
    var jobs, materials := db.jobs, db.materials;
    ghost var history := db.history;
    var cancelled := JobService.CancelJobsForMaterial(db, u, m, now);
    ghost var c := db.Snapshot();
    var mat := db.materials[m];
    if mat.storage == Reserved || mat.uncertain || BeingProcessed(mat, now) {
      db.jobs, db.materials := jobs, materials;
      db.history := history;
      return false;
    }
    mat := mat.(storage := Deleting);
    mat := mat.(lease := None, leaseExpires := None);
    db.materials := db.materials[m := mat.(message := StorageCleanupPending)];
    assert forall j :: Jobs.IsJobOf(db.Snapshot(), u, m, true, j) == Jobs.IsJobOf(c, u, m, true, j);
    return true;
  }

  method WriteTombstone(db: Session, m: MaterialId)
    requires m in db.materials
    modifies db
    ensures db.Snapshot() == Materials.Tombstone(old(db.Snapshot()), m)
  {
    var mat := db.materials[m];
    mat := mat.(chunks := {});
    mat := mat.(storage := Deleted);
    db.materials := db.materials[m := mat.(message := NoMessage)];
  }

  /** Only a row still deleting becomes a tombstone, which no longer counts against the quota. */
  method FinishDelete(db: Session, u: UserId, m: MaterialId)
    modifies db
    ensures db.Snapshot() == Materials.FinishDelete(old(db.Snapshot()), u, m)
    ensures Preserves(old(db.Snapshot()), db.Snapshot())
    ensures Objects.StorageMoves(old(db.Snapshot()), db.Snapshot())
    ensures if old(db.IsActive(u) && db.HasMaterial(u, m) && db.materials[m].storage == Deleting)
            then && LeavesMaterial(old(db.Snapshot()), db.Snapshot(), m,
                                   old(db.materials[m]).(storage := Deleted, chunks := {}, message := NoMessage))
                 && m !in Quotas.CountedRows(db.Snapshot(), u, db.nextMaterial)
            else db.Snapshot() == old(db.Snapshot())
  {
    forall n | RowsOk(db.Snapshot(), n) {
      FinishDeleteOk(db.Snapshot(), u, m, n);
    }
    if db.IsActive(u) && db.HasMaterial(u, m) && db.materials[m].storage == Deleting {
      WriteTombstone(db, m);
    }
  }

  /** Chunk rows are only cleared from a ready material; without any an available one is queued at once. */
  predicate MayReprocess(r: Rows, u: UserId, m: MaterialId, now: Time) {
    && UserActive(r, u) && OwnsMaterial(r, u, m) && r.materials[m].storage in {Reserved, Available}
    && !BeingProcessed(r.materials[m], now)
    && if r.materials[m].chunks == {} then r.materials[m].storage == Available else r.materials[m].processing == Ready
  }

  /** Queued anew with an active job, or leased to the request until the chunk rows are gone. */
  predicate Reprocesses(r: Rows, s: Rows, u: UserId, m: MaterialId, l: LeaseId, now: Time, chunks: set<ChunkId>) {
    && m in r.materials && chunks == r.materials[m].chunks
    && if chunks == {}
       then && s.materials == r.materials[m := Settled(r.materials[m], Pending, NoMessage)]
            && HasActiveJob(s, u, m)
       else && CancelsJobs(r, s, u, m, now)
            && s.materials == r.materials[m := AfterCancelling(r, u, m).(
                 processing := Processing, lease := Some(l), leaseExpires := Some(now + Materials.LEASE_DURATION),
                 message := IndexCleanupPending)]
  }

  lemma RequeueOutcome(r: Rows, u: UserId, m: MaterialId, now: Time)
    requires UserActive(r, u) && OwnsMaterial(r, u, m)
    ensures var c := Jobs.CancelJobsForMaterial(r, u, m, now);
            var p := PutMaterial(c, m, Settled(c.materials[m], Pending, NoMessage));
            var created := Jobs.CreateJob(p, u, m, now);
            && (created.Some? <==> r.materials[m].storage == Available)
            && (created.Some? ==>
                  && created.value.materials == r.materials[m := Settled(r.materials[m], Pending, NoMessage)]
                  && HasActiveJob(created.value, u, m))
  {
    var c := Jobs.CancelJobsForMaterial(r, u, m, now);
    CancelsJobsFirst(r, u, m, now);
    var p := PutMaterial(c, m, Settled(c.materials[m], Pending, NoMessage));
    assert p.materials == r.materials[m := Settled(r.materials[m], Pending, NoMessage)];
    CreatedIsActive(p, u, m, now);
  }

  lemma CreatedIsActive(r: Rows, u: UserId, m: MaterialId, now: Time)
    ensures Jobs.CreateJob(r, u, m, now).Some? ==> HasActiveJob(Jobs.CreateJob(r, u, m, now).value, u, m)
  {
    if Jobs.CreateJob(r, u, m, now).Some? {
      JobService.NewestIsFound(r, u, m, true, r.nextJob);
      var j := Jobs.NewestJob(r, u, m, true, r.nextJob).GetOr(r.nextJob);
      assert j in Jobs.CreateJob(r, u, m, now).value.jobs;
    }
  }

  lemma ReprocessOutcome(r: Rows, u: UserId, m: MaterialId, l: LeaseId, now: Time)
    ensures var o := Materials.BeginReprocess(r, u, m, l, now);
            && (!o.Refused? <==> MayReprocess(r, u, m, now))
            && (o.Requeued? ==> Reprocesses(r, o.rows, u, m, l, now, {}))
            && (o.Clearing? ==> o.chunks != {} && Reprocesses(r, o.rows, u, m, l, now, o.chunks))
  {
    if UserActive(r, u) && OwnsMaterial(r, u, m) {
      CancelsJobsFirst(r, u, m, now);
      RequeueOutcome(r, u, m, now);
    }
  }

  method StartReprocess(db: Session, u: UserId, m: MaterialId, l: LeaseId, now: Time)
    returns (ok: bool, chunks: set<ChunkId>)
    modifies db
    ensures match Materials.BeginReprocess(old(db.Snapshot()), u, m, l, now)
            case Refused => !ok && db.Snapshot() == old(db.Snapshot())
            case Requeued(s) => ok && chunks == {} && db.Snapshot() == s
            case Clearing(s, ids) => ok && chunks == ids && db.Snapshot() == s
  {
    ok, chunks := false, {};
    if !db.IsActive(u) || !db.HasMaterial(u, m)
       || db.materials[m].storage == Deleting || db.materials[m].storage == Deleted
    {
      return;
    }
    var wasReady := db.materials[m].processing == Ready;
    if BeingProcessed(db.materials[m], now) {
      return;
    }
    var jobs, materials := db.jobs, db.materials;
    ghost var history := db.history;
    var cancelled := JobService.CancelActive(db, u, m, now);
    var mat := db.materials[m];
    if mat.chunks == {} {
      db.Settle(m, Pending, NoMessage);
      ok := JobService.CreateMaterialJob(db, u, m, now);
    } else if mat.processing == Ready || wasReady {
      ok, chunks := true, mat.chunks;
      mat := mat.(processing := Processing);
      mat := mat.(leaseExpires := Some(now + Materials.LEASE_DURATION));
      mat := mat.(lease := Some(l));
      db.materials := db.materials[m := mat.(message := IndexCleanupPending)];
      db.Note(Wrote(m, l));
    }
    if !ok {
      db.jobs, db.materials := jobs, materials;
      db.history := history;
    }
  }

  /** `chunks` are the rows to clear before the next job; none are left when the job is queued at once. */
  method BeginReprocess(db: Session, u: UserId, m: MaterialId, l: LeaseId, now: Time)
    returns (ok: bool, chunks: set<ChunkId>)
    modifies db
    ensures match Materials.BeginReprocess(old(db.Snapshot()), u, m, l, now)
            case Refused => !ok && db.Snapshot() == old(db.Snapshot())
            case Requeued(s) => ok && chunks == {} && db.Snapshot() == s
            case Clearing(s, ids) => ok && chunks == ids && db.Snapshot() == s
    ensures forall n | RowsOk(old(db.Snapshot()), n) && l < n && !WasWritten(old(db.history), l) ::
              RowsOk(db.Snapshot(), n)
    ensures ok <==> old(MayReprocess(db.Snapshot(), u, m, now))
    ensures if ok then Reprocesses(old(db.Snapshot()), db.Snapshot(), u, m, l, now, chunks)
            else db.Snapshot() == old(db.Snapshot())
  {
    ReprocessOutcome(db.Snapshot(), u, m, l, now);
    forall n | RowsOk(db.Snapshot(), n) && l < n && !WasWritten(db.history, l)
               && !Materials.BeginReprocess(db.Snapshot(), u, m, l, now).Refused?
    {
      BeginReprocessOk(db.Snapshot(), u, m, l, now, n);
    }
    ok, chunks := StartReprocess(db, u, m, l, now);
  }

  /** The row is still leased to the request, the lease is alive and the chunk rows are those it found. */
  predicate MayFinishReprocess(r: Rows, u: UserId, m: MaterialId, l: LeaseId, ids: set<ChunkId>, now: Time) {
    && UserActive(r, u) && OwnsMaterial(r, u, m) && HasLease(r.materials[m], l)
    && LeaseActive(r.materials[m].leaseExpires, now) && (ids == {} || r.materials[m].chunks == ids)
  }

  lemma FinishReprocessOutcome(r: Rows, u: UserId, m: MaterialId, l: LeaseId, ids: set<ChunkId>, now: Time)
    ensures var o := Materials.FinishReprocess(r, u, m, l, ids, now);
            && (o.Some? <==> MayFinishReprocess(r, u, m, l, ids, now))
            && (o.Some? ==>
                  && HasActiveJob(o.value, u, m) && o.value.users == r.users
                  && o.value.materials == r.materials[m := Settled(r.materials[m], Pending, NoMessage).(chunks := {})])
  {
    if Materials.OwnsProcessing(r, u, m, l, ids, now) {
      CreatedIsActive(PutMaterial(r, m, Settled(r.materials[m], Pending, NoMessage).(chunks := {})), u, m, now);
    }
  }

  method FinishReprocess(db: Session, u: UserId, m: MaterialId, l: LeaseId, ids: set<ChunkId>, now: Time)
    returns (ok: bool)
    modifies db
    ensures var outcome := Materials.FinishReprocess(old(db.Snapshot()), u, m, l, ids, now);
            ok == outcome.Some? && db.Snapshot() == outcome.GetOr(old(db.Snapshot()))
    ensures Preserves(old(db.Snapshot()), db.Snapshot())
    ensures ok <==> old(MayFinishReprocess(db.Snapshot(), u, m, l, ids, now))
    ensures if ok then && HasActiveJob(db.Snapshot(), u, m) && db.users == old(db.users)
                       && db.materials == old(db.materials)[m := Settled(old(db.materials)[m], Pending, NoMessage)
                                                                 .(chunks := {})]
            else db.Snapshot() == old(db.Snapshot())
  {
    FinishReprocessOutcome(db.Snapshot(), u, m, l, ids, now);
    forall n | RowsOk(db.Snapshot(), n)
      ensures Keeps(db.Snapshot(),
                    Materials.FinishReprocess(db.Snapshot(), u, m, l, ids, now).GetOr(db.Snapshot()), n)
    {
      QuietRefl(db.Snapshot(), n);
      FinishReprocessOk(db.Snapshot(), u, m, l, ids, now, n);
    }
    if !db.IsActive(u) {
      return false;
    }
    var owned := ReloadOwnedAttempt(db, u, m, l, ids, now);
    if !owned {
      return false;
    }
    var before := db.materials;
    db.materials := before[m := before[m].(chunks := {})];
    db.Settle(m, Pending, NoMessage);
    assert db.materials == before[m := Settled(before[m], Pending, NoMessage).(chunks := {})];
    ok := JobService.CreateMaterialJob(db, u, m, now);
  }

  // ---------------------------------------------------------------- course deletion

  /** No material of the course may still get an object, and none is being processed. */
  predicate MayMarkCourse(r: Rows, u: UserId, c: CourseId, now: Time) {
    && UserActive(r, u)
    && forall m | m in r.materials && r.materials[m].owner == u && r.materials[m].course == c ::
         || r.materials[m].storage == Deleted
         || (r.materials[m].storage != Reserved && !r.materials[m].uncertain && !BeingProcessed(r.materials[m], now))
  }

  predicate HidesCourse(r: Rows, s: Rows, u: UserId, c: CourseId) {
    && s.users == r.users && s.nextMaterial == r.nextMaterial && s.nextJob == r.nextJob && s.jobs == r.jobs
    && s.materials == map m | m in r.materials ::
         if r.materials[m].owner == u && r.materials[m].course == c && r.materials[m].storage != Deleted
         then r.materials[m].(storage := Deleting, lease := None, leaseExpires := None, message := StorageCleanupPending)
         else r.materials[m]
  }

  lemma MarkCourseOutcome(r: Rows, u: UserId, c: CourseId, now: Time)
    ensures Materials.MarkCourse(r, u, c, now).Some? <==> MayMarkCourse(r, u, c, now)
    ensures Materials.MarkCourse(r, u, c, now).Some? ==>
              HidesCourse(r, Materials.MarkCourse(r, u, c, now).value, u, c)
  {
    var ms := Materials.CourseMaterials(r, u, c);
    if MayMarkCourse(r, u, c, now) {
      assert forall m | m in ms :: !Materials.BlocksCourse(r.materials[m], now);
    } else if UserActive(r, u) {
      var m :| m in r.materials && r.materials[m].owner == u && r.materials[m].course == c
               && r.materials[m].storage != Deleted
               && (r.materials[m].storage == Reserved || r.materials[m].uncertain
                   || BeingProcessed(r.materials[m], now));
      assert m in ms && Materials.BlocksCourse(r.materials[m], now);
    }
  }

  /** Refused while any material of the course may still get an object or is being processed. */
  method MarkCourse(db: Session, u: UserId, c: CourseId, now: Time) returns (ok: bool)
    modifies db
    ensures var outcome := Materials.MarkCourse(old(db.Snapshot()), u, c, now);
            ok == outcome.Some? && db.Snapshot() == outcome.GetOr(old(db.Snapshot()))
    ensures Preserves(old(db.Snapshot()), db.Snapshot())
    ensures ok <==> old(MayMarkCourse(db.Snapshot(), u, c, now))
    ensures if ok then HidesCourse(old(db.Snapshot()), db.Snapshot(), u, c) else db.Snapshot() == old(db.Snapshot())
  {
    MarkCourseOutcome(db.Snapshot(), u, c, now);
    forall n | RowsOk(db.Snapshot(), n)
      ensures Keeps(db.Snapshot(), Materials.MarkCourse(db.Snapshot(), u, c, now).GetOr(db.Snapshot()), n)
    {
      QuietRefl(db.Snapshot(), n);
      if Materials.MarkCourse(db.Snapshot(), u, c, now).Some? {
        MarkCourseOk(db.Snapshot(), u, c, now, n);
      }
    }
    if !db.IsActive(u) {
      return false;
    }
    var owned := set m | m in db.materials && db.materials[m].owner == u && db.materials[m].course == c;
    assert owned == Materials.CourseMaterials(db.Snapshot(), u, c);
    if exists m | m in owned :: Materials.BlocksCourse(db.materials[m], now) {
      return false;
    }
    HideEach(db, set m | m in owned && db.materials[m].storage != Deleted);
    return true;
  }

  method HideEach(db: Session, ms: set<MaterialId>)
    requires ms <= db.materials.Keys
    modifies db`materials
    ensures db.materials == map m | m in old(db.materials) ::
                              if m in ms
                              then Unleased(old(db.materials)[m]).(storage := Deleting, message := StorageCleanupPending)
                              else old(db.materials)[m]
  {
    ghost var before := db.materials;
    var left := ms;
    while left != {}
      invariant left <= ms && db.materials.Keys == before.Keys
      invariant forall m | m in before ::
                  db.materials[m] == if m in ms && m !in left
                                     then Unleased(before[m]).(storage := Deleting, message := StorageCleanupPending)
                                     else before[m]
      decreases left
    {
      var m :| m in left;
      var mat := db.materials[m];
      mat := mat.(storage := Deleting);
      mat := mat.(lease := None, leaseExpires := None);
      db.materials := db.materials[m := mat.(message := StorageCleanupPending)];
      left := left - {m};
    }
  }

  // ---------------------------------------------------------------- recovery and account deletion

  /** Nobody is processing the row, and it was left reserved, deleting or with its processing unfinished. */
  predicate IsStale(mat: Material, now: Time) {
    && !(mat.processing == Processing && mat.leaseExpires.Some? && mat.leaseExpires.value > now)
    && (|| mat.storage in {Reserved, Deleting}
        || (mat.storage == Available
            && (mat.processing == Processing || (mat.processing == ProcessingFailed && mat.chunks != {}))))
  }

  /** A stale row is reset if available, and otherwise hidden and next to lose its object; any other stays. */
  predicate RecoverySettles(r: Rows, s: Rows, m: MaterialId, now: Time) {
    if m in r.materials && UserExists(r, r.materials[m].owner) && IsStale(r.materials[m], now) then
      var mat := r.materials[m];
      LeavesMaterial(r, s, m,
                     if mat.storage == Available
                     then mat.(processing := ProcessingFailed, lease := None, leaseExpires := None,
                               message := FailedMessage, chunks := {})
                     else mat.(storage := Deleting, message := StorageCleanupPending))
    else s == r
  }

  lemma RecoverStorageSettles(r: Rows, m: MaterialId, now: Time)
    ensures var s := Materials.RecoverStorage(r, m, now);
            && RecoverySettles(r, s, m, now) && Objects.StorageMoves(r, s)
            && (Materials.NeedsRecovery(s, m, now) <==>
                  m in r.materials && UserExists(r, r.materials[m].owner) && IsStale(r.materials[m], now)
                  && r.materials[m].storage != Available)
  {
  }

  method ResetProcessing(db: Session, m: MaterialId)
    requires m in db.materials
    modifies db`materials
    ensures db.materials
         == old(db.materials)[m := Settled(old(db.materials)[m], ProcessingFailed, FailedMessage).(chunks := {})]
  {
    db.materials := db.materials[m := db.materials[m].(chunks := {})];
    db.Settle(m, ProcessingFailed, FailedMessage);
  }

  /** Afterwards the row needs recovery no more, or its object is the next thing to go. */
  method RecoverMaterial(db: Session, m: MaterialId, now: Time) returns (cleanObject: bool)
    modifies db
    ensures db.Snapshot() == Materials.RecoverStorage(old(db.Snapshot()), m, now)
    ensures var r := old(db.Snapshot());
            cleanObject == (Materials.NeedsRecovery(r, m, now) && r.materials[m].storage != Available)
    ensures Preserves(old(db.Snapshot()), db.Snapshot())
    ensures RecoverySettles(old(db.Snapshot()), db.Snapshot(), m, now)
    ensures Objects.StorageMoves(old(db.Snapshot()), db.Snapshot())
    ensures cleanObject <==> Materials.NeedsRecovery(db.Snapshot(), m, now)
    ensures cleanObject <==> old(m in db.materials && db.Exists(db.materials[m].owner) && IsStale(db.materials[m], now)
                                 && db.materials[m].storage != Available)
  {
    RecoverStorageSettles(db.Snapshot(), m, now);
    forall n | RowsOk(db.Snapshot(), n) {
      RecoverStorageOk(db.Snapshot(), m, now, n);
    }
    if m !in db.materials || !db.Exists(db.materials[m].owner) {
      return false;
    }
    var mat := db.materials[m];
    if BeingProcessed(mat, now) || mat.storage == Deleted {
      return false;
    }
    if mat.storage == Available {
      if mat.processing == Processing || (mat.processing == ProcessingFailed && mat.chunks != {}) {
        ResetProcessing(db, m);
      }
      return false;
    }
    mat := mat.(storage := Deleting);
    db.materials := db.materials[m := mat.(message := StorageCleanupPending)];
    return true;
  }

  /** Afterwards the row needs recovery no more; one that did is a tombstone. */
  method FinishRecovery(db: Session, m: MaterialId, now: Time)
    modifies db
    ensures db.Snapshot() == Materials.FinishRecovery(old(db.Snapshot()), m, now)
    ensures Preserves(old(db.Snapshot()), db.Snapshot())
    ensures Objects.StorageMoves(old(db.Snapshot()), db.Snapshot())
    ensures !Materials.NeedsRecovery(db.Snapshot(), m, now)
    ensures if old(m in db.materials && db.Exists(db.materials[m].owner) && IsStale(db.materials[m], now))
            then LeavesMaterial(old(db.Snapshot()), db.Snapshot(), m,
                                old(db.materials[m]).(uncertain := false, storage := Deleted, chunks := {},
                                                      message := NoMessage))
            else db.Snapshot() == old(db.Snapshot())
  {
    forall n | RowsOk(db.Snapshot(), n) {
      FinishRecoveryOk(db.Snapshot(), m, now, n);
    }
    if m !in db.materials || !db.Exists(db.materials[m].owner) {
      return;
    }
    if Materials.RecoverableMaterial(db.materials[m], now) {
      db.materials := db.materials[m := db.materials[m].(uncertain := false)];
      WriteTombstone(db, m);
    }
  }

  /** The user's active jobs are cancelled and what was being processed has failed; nothing else differs. */
  predicate FencesAccount(r: Rows, s: Rows, u: UserId, now: Time) {
    && s.users == r.users && s.nextMaterial == r.nextMaterial && s.nextJob == r.nextJob
    && s.jobs == (map j | j in r.jobs ::
         if r.jobs[j].owner == u && r.jobs[j].status in {Queued, Running}
         then r.jobs[j].(status := Cancelled, error := ProcessingCancelledCode, updatedAt := now)
         else r.jobs[j])
    && s.materials == map m | m in r.materials ::
         if r.materials[m].owner == u && r.materials[m].processing == Processing
         then r.materials[m].(processing := ProcessingFailed, lease := None, leaseExpires := None,
                              message := CancelledMessage)
         else r.materials[m]
  }

  lemma AccountIsFenced(r: Rows, u: UserId, now: Time)
    ensures FencesAccount(r, Materials.FenceAccount(r, u, now), u, now)
  {
    var s := Jobs.CancelAll(r, Jobs.ActiveJobs(r, u, None), now);
    assert s.materials == r.materials;
    forall j | j in r.jobs
      ensures j in Jobs.ActiveJobs(r, u, None) <==> r.jobs[j].owner == u && r.jobs[j].status in {Queued, Running}
    {
    }
  }

  method FenceAccount(db: Session, u: UserId, now: Time)
    modifies db
    ensures db.Snapshot() == Materials.FenceAccount(old(db.Snapshot()), u, now)
    ensures Preserves(old(db.Snapshot()), db.Snapshot())
    ensures FencesAccount(old(db.Snapshot()), db.Snapshot(), u, now)
  {
    AccountIsFenced(db.Snapshot(), u, now);
    forall n | RowsOk(db.Snapshot(), n) {
      FenceAccountOk(db.Snapshot(), u, now, n);
    }
    var active := set j | j in db.jobs && db.jobs[j].owner == u && Active(db.jobs[j]);
    assert active == Jobs.ActiveJobs(db.Snapshot(), u, None);
    var count := JobService.CancelEach(db, active, now);
    if count > 0 {
      db.Note(CancelledJobs(active));
    } else {
      assert db.jobs == old(db.jobs);
    }
    var processed := set m | m in db.materials && db.materials[m].owner == u && db.materials[m].processing == Processing;
    SettleEach(db, processed);
  }

  method SettleEach(db: Session, ms: set<MaterialId>)
    requires ms <= db.materials.Keys
    modifies db`materials
    ensures db.materials == map m | m in old(db.materials) ::
                              if m in ms then Settled(old(db.materials)[m], ProcessingFailed, CancelledMessage)
                              else old(db.materials)[m]
  {
    ghost var before := db.materials;
    var left := ms;
    while left != {}
      invariant left <= ms && db.materials.Keys == before.Keys
      invariant forall m | m in before ::
                  db.materials[m] == if m in ms && m !in left
                                     then Settled(before[m], ProcessingFailed, CancelledMessage) else before[m]
      decreases left
    {
      var m :| m in left;
      db.Settle(m, ProcessingFailed, CancelledMessage);
      left := left - {m};
    }
  }

  /** Every row of the user goes, and no row of anybody else. */
  method RemoveAccount(db: Session, u: UserId)
    modifies db
    ensures db.Snapshot() == Materials.RemoveAccount(old(db.Snapshot()), u)
    ensures Preserves(old(db.Snapshot()), db.Snapshot())
    ensures db.users == old(db.users) - {u}
    ensures forall m :: m in db.materials <==> m in old(db.materials) && old(db.materials)[m].owner != u
    ensures forall m | m in db.materials :: db.materials[m] == old(db.materials)[m]
    ensures old(db.Valid()) ==>
              && (forall j :: j in db.jobs <==> j in old(db.jobs) && old(db.jobs)[j].owner != u)
              && (forall j | j in db.jobs :: db.jobs[j] == old(db.jobs)[j])
  {
    forall n | RowsOk(db.Snapshot(), n) {
      RemoveAccountOk(db.Snapshot(), u, n);
    }
    var owned := set m | m in db.materials && db.materials[m].owner == u;
    RemoveRows(db, owned);
    db.users := db.users - {u};
  }
}
