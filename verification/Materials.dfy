/** What each transaction of the material endpoints, the worker and the storage recovery does to the rows. */
module Materials {
  import opened Options
  import opened Tables
  import opened Jobs

  const LEASE_DURATION: nat := 3600

  // ---------------------------------------------------------------- quota and upload

  /** The row counts against the user's quota. */
  predicate Counts(r: Rows, u: UserId, m: MaterialId) {
    OwnsMaterial(r, u, m) && r.materials[m].storage != Deleted
  }

  function FilesUsed(r: Rows, u: UserId, n: MaterialId): nat {
    if n == 0 then 0 else FilesUsed(r, u, n - 1) + (if Counts(r, u, n - 1) then 1 else 0)
  }

  function StorageUsed(r: Rows, u: UserId, n: MaterialId): nat {
    if n == 0 then 0
    else StorageUsed(r, u, n - 1) + (if Counts(r, u, n - 1) then r.materials[n - 1].size else 0)
  }

  function Reserve(r: Rows, u: UserId, c: CourseId, objectId: nat): Option<Rows> {
    if !UserActive(r, u) || FilesUsed(r, u, r.nextMaterial) + 1 > r.users[u].fileLimit then None
    else
      var m := r.nextMaterial;
      var row := Material(u, c, ObjectKey(u, c, m, objectId), Reserved, false, 0, None,
                          Pending, None, None, NoMessage, {});
      Some(PutMaterial(r, m, row).(nextMaterial := m + 1))
  }

  /** Not shown to the owner any more. */
  predicate Hidden(mat: Material) {
    mat.storage == Deleting || mat.storage == Deleted
  }

  predicate Live(mat: Material) {
    mat.storage == Reserved || mat.storage == Available
  }

  predicate SameContent(mat: Material, u: UserId, c: CourseId, hash: Hash) {
    mat.owner == u && mat.course == c && mat.hash == Some(hash) && Live(mat)
  }

  predicate IsDuplicate(r: Rows, u: UserId, c: CourseId, hash: Hash, except: MaterialId) {
    exists k | k in r.materials :: k != except && SameContent(r.materials[k], u, c, hash)
  }

  /** Makes the real size and hash durable before the object is written. */
  function CommitUpload(r: Rows, u: UserId, c: CourseId, m: MaterialId, size: nat, hash: Hash): Option<Rows> {
    if !UserActive(r, u) || StorageUsed(r, u, r.nextMaterial) + size > r.users[u].storageLimit then None
    else if !OwnsMaterial(r, u, m) || Hidden(r.materials[m]) then None
    else if IsDuplicate(r, u, c, hash, m) then None
    else Some(PutMaterial(r, m, r.materials[m].(size := size, hash := Some(hash))))
  }

  predicate MayStartPut(r: Rows, u: UserId, m: MaterialId) {
    UserActive(r, u) && OwnsMaterial(r, u, m) && !Hidden(r.materials[m])
  }

  /** The available object and its job become visible together, or neither does. */
  function Publish(r: Rows, u: UserId, m: MaterialId, now: Time): Option<Rows> {
    if !OwnsMaterial(r, u, m) then None
    else CreateJob(PutMaterial(r, m, r.materials[m].(storage := Available, uncertain := false)), u, m, now)
  }

  predicate IsReserved(r: Rows, m: MaterialId) {
    m in r.materials && r.materials[m].storage == Reserved
  }

  function MarkDeleting(r: Rows, m: MaterialId, uncertain: bool): Rows
    requires m in r.materials
  {
    var mat := r.materials[m];
    PutMaterial(r, m, mat.(storage := Deleting, message := StorageCleanupPending,
                           uncertain := uncertain || mat.uncertain))
  }

  /** A reservation whose object could not be removed keeps its row. */
  function KeepReservation(r: Rows, m: MaterialId, uncertain: bool): Rows {
    if IsReserved(r, m) then MarkDeleting(r, m, uncertain) else r
  }

  function DiscardReservation(r: Rows, m: MaterialId): Rows {
    if IsReserved(r, m) then RemoveMaterials(r, {m}) else r
  }

  function Compensate(r: Rows, u: UserId, m: MaterialId): Option<Rows> {
    if UserActive(r, u) && OwnsMaterial(r, u, m) && Live(r.materials[m])
    then Some(MarkDeleting(r, m, false)) else None
  }

  // ---------------------------------------------------------------- processing attempts

  /** Writing the lease shares its transaction with the 25% report, so it needs a current attempt. */
  function TakeLease(r: Rows, u: UserId, j: JobId, number: nat, m: MaterialId, l: LeaseId, now: Time): Rows {
    if !IsCurrentAttempt(r, u, j, Some(number)) || m !in r.materials then r
    else
      Log(PutMaterial(UpdateProgress(r, u, j, 25, Some(number), now), m,
                      Leased(r.materials[m], l, now + LEASE_DURATION)),
          Wrote(m, l))
  }

  function PersistIntent(r: Rows, m: MaterialId, ids: set<ChunkId>): Rows {
    if m !in r.materials then r
    else PutMaterial(r, m, r.materials[m].(chunks := r.materials[m].chunks + ids))
  }

  /** The row still belongs to this attempt and holds exactly its chunk rows. */
  predicate OwnsProcessing(r: Rows, u: UserId, m: MaterialId, l: LeaseId, ids: set<ChunkId>, now: Time) {
    && OwnsMaterial(r, u, m)
    && r.materials[m].storage == Available
    && BeingProcessed(r.materials[m], now)
    && r.materials[m].lease == Some(l)
    && (ids != {} ==> r.materials[m].chunks == ids)
  }

  predicate HoldsLease(r: Rows, m: MaterialId, l: LeaseId) {
    && m in r.materials
    && r.materials[m].storage == Available
    && r.materials[m].processing == Processing
    && r.materials[m].lease == Some(l)
  }

  function MarkReady(r: Rows, m: MaterialId, l: LeaseId, j: JobId): Rows {
    if !HoldsLease(r, m, l) then r
    else Log(PutMaterial(r, m, Unleased(r.materials[m]).(processing := Ready)), Readied(m, l, j))
  }

  function FailProcessing(r: Rows, m: MaterialId): Rows {
    if m !in r.materials then r
    else PutMaterial(r, m, Settled(r.materials[m], ProcessingFailed, FailedMessage))
  }

  function FailIntent(r: Rows, m: MaterialId, l: LeaseId): Rows {
    if !HoldsLease(r, m, l) then r
    else PutMaterial(r, m, Settled(r.materials[m], ProcessingFailed, IndexCleanupPending))
  }

  function DropChunks(r: Rows, m: MaterialId, ids: set<ChunkId>): Rows {
    if m !in r.materials then r
    else PutMaterial(r, m, r.materials[m].(chunks := r.materials[m].chunks - ids))
  }

  function DropIntent(r: Rows, m: MaterialId, ids: set<ChunkId>): Rows {
    if m !in r.materials then r
    else PutMaterial(r, m, r.materials[m].(chunks := r.materials[m].chunks - ids, message := FailedMessage))
  }

  // ---------------------------------------------------------------- delete and reprocess

  /** None when the request is refused or there is nothing left to delete. */
  function BeginDelete(r: Rows, u: UserId, m: MaterialId, now: Time): Option<Rows> {
    if !UserActive(r, u) || !OwnsMaterial(r, u, m) || r.materials[m].storage == Deleted then None
    else
      var s := CancelJobsForMaterial(r, u, m, now);
      var mat := s.materials[m];
      if mat.storage == Reserved || mat.uncertain || BeingProcessed(mat, now) then None
      else Some(PutMaterial(s, m, Unleased(mat).(storage := Deleting, message := StorageCleanupPending)))
  }

  function Tombstone(r: Rows, m: MaterialId): Rows
    requires m in r.materials
  {
    PutMaterial(r, m, r.materials[m].(storage := Deleted, chunks := {}, message := NoMessage))
  }

  function FinishDelete(r: Rows, u: UserId, m: MaterialId): Rows {
    if UserActive(r, u) && OwnsMaterial(r, u, m) && r.materials[m].storage == Deleting
    then Tombstone(r, m) else r
  }

  /** A ready material keeps a recoverable lease while its old chunks go; others are requeued at once. */
  datatype Reprocessing = Refused | Requeued(rows: Rows) | Clearing(rows: Rows, chunks: set<ChunkId>)

  function BeginReprocess(r: Rows, u: UserId, m: MaterialId, l: LeaseId, now: Time): Reprocessing {
    if !UserActive(r, u) || !OwnsMaterial(r, u, m) || Hidden(r.materials[m]) then Refused
    else if BeingProcessed(r.materials[m], now) then Refused
    else
      var wasReady := r.materials[m].processing == Ready;
      var s := CancelJobsForMaterial(r, u, m, now);
      var mat := s.materials[m];
      if mat.chunks == {} then
        match CreateJob(PutMaterial(s, m, Settled(mat, Pending, NoMessage)), u, m, now)
        case None => Refused
        case Some(t) => Requeued(t)
      else if mat.processing != Ready && !wasReady then Refused
      else
        var leased := Leased(mat, l, now + LEASE_DURATION).(message := IndexCleanupPending);
        Clearing(Log(PutMaterial(s, m, leased), Wrote(m, l)), mat.chunks)
  }

  function FinishReprocess(r: Rows, u: UserId, m: MaterialId, l: LeaseId, ids: set<ChunkId>, now: Time): Option<Rows> {
    if !UserActive(r, u) || !OwnsProcessing(r, u, m, l, ids, now) then None
    else
      CreateJob(PutMaterial(r, m, Settled(r.materials[m], Pending, NoMessage).(chunks := {})), u, m, now)
  }

  // ---------------------------------------------------------------- storage recovery

  predicate RecoverableMaterial(mat: Material, now: Time) {
    && !BeingProcessed(mat, now)
    && (|| mat.storage == Reserved
        || mat.storage == Deleting
        || (mat.storage == Available
            && (|| mat.processing == Processing
                || (mat.processing == ProcessingFailed && mat.chunks != {}))))
  }

  predicate NeedsRecovery(r: Rows, m: MaterialId, now: Time) {
    m in r.materials && UserExists(r, r.materials[m].owner) && RecoverableMaterial(r.materials[m], now)
  }

  /** An available material is reset on the spot; the others are marked and their object deleted next. */
  function RecoverStorage(r: Rows, m: MaterialId, now: Time): Rows {
    if !NeedsRecovery(r, m, now) then r
    else if r.materials[m].storage == Available then
      PutMaterial(r, m, Settled(r.materials[m], ProcessingFailed, FailedMessage).(chunks := {}))
    else MarkDeleting(r, m, false)
  }

  function FinishRecovery(r: Rows, m: MaterialId, now: Time): Rows {
    if !NeedsRecovery(r, m, now) then r
    else Tombstone(PutMaterial(r, m, r.materials[m].(uncertain := false)), m)
  }

  // ---------------------------------------------------------------- course and account deletion

  function CourseMaterials(r: Rows, u: UserId, c: CourseId): set<MaterialId> {
    set m | m in r.materials && r.materials[m].owner == u && r.materials[m].course == c
  }

  predicate BlocksCourse(mat: Material, now: Time) {
    mat.storage != Deleted && (mat.storage == Reserved || mat.uncertain || BeingProcessed(mat, now))
  }

  function MarkCourse(r: Rows, u: UserId, c: CourseId, now: Time): Option<Rows> {
    var ms := CourseMaterials(r, u, c);
    if !UserActive(r, u) || exists m | m in ms :: BlocksCourse(r.materials[m], now) then None
    else
      Some(r.(materials := map m | m in r.materials ::
                if m in ms && r.materials[m].storage != Deleted
                then Unleased(r.materials[m]).(storage := Deleting, message := StorageCleanupPending)
                else r.materials[m]))
  }

  function UserMaterials(r: Rows, u: UserId): set<MaterialId> {
    set m | m in r.materials && r.materials[m].owner == u
  }

  /** Cancels the user's jobs and fails what is being processed. */
  function FenceAccount(r: Rows, u: UserId, now: Time): Rows {
    var s := CancelAll(r, ActiveJobs(r, u, None), now);
    s.(materials := map m | m in s.materials ::
         if s.materials[m].owner == u && s.materials[m].processing == Processing
         then Settled(s.materials[m], ProcessingFailed, CancelledMessage)
         else s.materials[m])
  }

  /** Processing has been fenced, so only storage can still block the account's deletion. */
  predicate BlocksAccount(mat: Material) {
    mat.storage == Reserved || mat.uncertain
  }

  function RemoveAccount(r: Rows, u: UserId): Rows {
    RemoveMaterials(r, UserMaterials(r, u)).(users := r.users - {u})
  }
}
