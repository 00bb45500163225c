/**
 The whole pipeline as a transition system. One step is one transaction, one external
 effect or one read between them; `Next` leaves the world alone when a step is not
 enabled. Every step carries its own clock readings, so nothing is assumed of the clock,
 and any process may stop for good between two steps. Wakeups may be lost, late or
 repeated: a claim is possible at any time.
 */
module Lifecycle {
  import opened Options
  import opened Tables
  import opened Jobs
  import opened Materials

  // ---------------------------------------------------------------- processes

  datatype AfterFailure = ReturnNormally | FailAfter | CancelAfter | Vanish

  /** Where a worker stands between two of its transactions. */
  datatype AttemptPc =
    | Fetched                         // claimed, material not loaded yet
    | Starting                        // before the first cancellation check
    | Leasing                         // lease flushed, not committed
    | Downloaded                      // second check passed
    | Parsing                         // lease committed, before the third check
    | Chunking                        // before the chunk rows are committed
    | Indexing                        // chunk rows committed, index not written
    | Indexed                         // before the last check
    | Confirming                      // the extra check when there are no chunks
    | Finishing                       // before the READY update
    | FailingIntent(after: AfterFailure)
    | DroppingIntent(after: AfterFailure)
    | Returned
    | Refreshed(ready: bool)
    | ToSucceed
    | ToFail(code: ErrorCode)
    | ToCancel
    | Stopped

  /** `dropped` are chunk rows deleted in the transaction that the final mark commits. */
  datatype Attempt = Attempt(
    owner: UserId,
    job: JobId,
    material: MaterialId,
    series: nat,
    number: nat,
    pc: AttemptPc,
    chunks: set<ChunkId>,
    dropped: set<ChunkId>)

  datatype Reprocess = Reprocess(owner: UserId, material: MaterialId, chunks: set<ChunkId>)

  datatype UploadPc =
    | Staging
    | Committed
    | Putting
    | Stored
    | Discarding
    | DiscardingUncertain
    | DiscardingStored
    | Compensating
    | Over

  datatype Upload = Upload(owner: UserId, course: CourseId, key: ObjectKey, pc: UploadPc)

  datatype CleanerKind = OwnerDelete | Recovery | Compensation

  /** Someone who marked a material as deleting and now removes its object, then settles the row. */
  datatype Cleaner = Cleaner(kind: CleanerKind, owner: UserId, key: ObjectKey, objectGone: bool)

  /** Transactions that keep the user lock while they touch the object store. */
  datatype Holder =
    | UploadHolds(material: MaterialId)
    | CourseHolds(course: CourseId, gone: set<MaterialId>)
    | AccountHolds(gone: set<MaterialId>)

  datatype World = World(
    rows: Rows,
    attempts: map<LeaseId, Attempt>,
    reprocesses: map<LeaseId, Reprocess>,
    nextLease: LeaseId,
    uploads: map<MaterialId, Upload>,
    cleaners: map<nat, Cleaner>,
    nextCleaner: nat,
    locks: map<UserId, Holder>,
    objects: set<ObjectKey>,
    inFlight: set<ObjectKey>)

  /** No upload, course deletion or account deletion is holding the user row. */
  predicate Unlocked(w: World, u: UserId) {
    u !in w.locks
  }

  // ---------------------------------------------------------------- worker steps

  datatype WorkerStep =
    | Load
    | Check
    | Report(percent: int, at: Time)
    | WriteLease(at: Time)
    | AddIntent(ids: set<ChunkId>)
    | Validate(at: Time)
    | SetReady(compensated: bool, acknowledged: bool)
    | RaiseError
    | Interrupt(databaseError: bool)
    | Crash
    | SettleIntent(compensated: bool)
    | EraseIntent
    | Refresh
    | Observe
    | Mark(at: Time)

  /** Inside the try block of the processing routine. */
  predicate Working(pc: AttemptPc) {
    match pc
    case Starting | Leasing | Downloaded | Parsing | Chunking
       | Indexing | Indexed | Confirming | Finishing => true
    case _ => false
  }

  predicate BeforeLease(pc: AttemptPc) {
    pc == Fetched || pc == Starting || pc == Leasing || pc == Downloaded
  }

  function Target(after: AfterFailure): AttemptPc {
    match after
    case ReturnNormally => Returned
    case FailAfter => ToFail(ProcessingFailedCode)
    case CancelAfter => ToCancel
    case Vanish => Stopped
  }

  /** Leaving the try block: chunk rows that were committed are settled first. */
  function Unwind(a: Attempt, after: AfterFailure): Attempt {
    a.(pc := if a.chunks != {} then FailingIntent(after) else Target(after))
  }

  function AfterCheck(a: Attempt): AttemptPc {
    match a.pc
    case Starting => Leasing
    case Leasing => Downloaded
    case Parsing => Chunking
    case Indexed => if a.chunks == {} then Confirming else Finishing
    case Confirming => Finishing
    case other => other
  }

  predicate Checks(pc: AttemptPc) {
    pc == Starting || pc == Leasing || pc == Parsing || pc == Indexed || pc == Confirming
  }

  predicate LostJob(r: Rows, a: Attempt) {
    IsCancelled(r, a.owner, a.job, Some(a.number))
  }

  predicate Marks(pc: AttemptPc) {
    pc.ToSucceed? || pc.ToFail? || pc.ToCancel?
  }

  function MarkOutcome(r: Rows, a: Attempt, now: Time): Rows {
    match a.pc
    case ToSucceed => MarkSucceeded(r, a.owner, a.job, Some(a.number), now)
    case ToFail(code) => MarkFailed(r, a.owner, a.job, code, Some(a.number), now)
    case ToCancel => MarkCancelled(r, a.owner, a.job, Some(a.number), now)
    case _ => r
  }

  function ApplyMark(r: Rows, a: Attempt, now: Time): Rows {
    if LostJob(r, a) || !Marks(a.pc) then r
    else MarkOutcome(DropChunks(r, a.material, a.dropped), a, now)
  }

  /** The rows after the step, and the attempt with its next program counter. */
  function WorkerNext(w: World, l: LeaseId, a: Attempt, step: WorkerStep): (Rows, Attempt) {
    var r := w.rows;
    match step
    case Load =>
      if a.pc != Fetched then (r, a)
      else if MaterialAvailable(r, a.owner, a.material) then (r, a.(pc := Starting))
      else (r, a.(pc := ToFail(MaterialUnavailable)))
    case Check =>
      if !Checks(a.pc) then (r, a)
      else if LostJob(r, a) then (r, Unwind(a, CancelAfter))
      else (r, a.(pc := AfterCheck(a)))
    case Report(percent, now) =>
      if !Working(a.pc) || !Unlocked(w, a.owner) then (r, a)
      else (UpdateProgress(r, a.owner, a.job, percent, Some(a.number), now), a)
    case WriteLease(now) =>
      if a.pc != Downloaded || !Unlocked(w, a.owner) then (r, a)
      else (TakeLease(r, a.owner, a.job, a.number, a.material, l, now), a.(pc := Parsing))
    case AddIntent(ids) =>
      if a.pc != Chunking then (r, a)
      else if ids == {} then (r, a.(pc := Indexed))
      else if a.material !in r.materials then (r, a.(pc := ToFail(ProcessingFailedCode)))
      else (PersistIntent(r, a.material, ids), a.(pc := Indexing, chunks := ids))
    case Validate(now) =>
      if a.pc != Indexing || !Unlocked(w, a.owner) then (r, a)
      else if !UserActive(r, a.owner) then (r, Unwind(a, ReturnNormally))
      else if !OwnsProcessing(r, a.owner, a.material, l, a.chunks, now) then (r, a.(pc := Returned))
      else if LostJob(r, a) then (r, Unwind(a, CancelAfter))
      else (r, a.(pc := Indexed))
    case SetReady(compensated, acknowledged) =>
      if a.pc != Finishing then (r, a)
      else if HoldsLease(r, a.material, l) then
        (MarkReady(r, a.material, l, a.job),
         if acknowledged then a.(pc := Returned) else Unwind(a, FailAfter))
      else (r, a.(pc := Returned, dropped := if compensated then a.chunks else {}))
    case RaiseError =>
      if !Working(a.pc) then (r, a)
      else if a.chunks != {} then (r, Unwind(a, ReturnNormally))
      else if a.material !in r.materials then (r, a.(pc := ToFail(ProcessingFailedCode)))
      else (FailProcessing(r, a.material), a.(pc := Returned))
    case Interrupt(databaseError) =>
      if a.pc == Stopped then (r, a)
      else if Working(a.pc) then (r, Unwind(a, if databaseError then FailAfter else Vanish))
      else (r, a.(pc := if databaseError then ToFail(ProcessingFailedCode) else Stopped))
    case Crash => (r, a.(pc := Stopped))
    case SettleIntent(compensated) =>
      if !a.pc.FailingIntent? then (r, a)
      else if HoldsLease(r, a.material, l) then
        (FailIntent(r, a.material, l),
         a.(pc := if compensated then DroppingIntent(a.pc.after) else Target(a.pc.after)))
      else
        var keepsDeletion := compensated && a.pc.after == ReturnNormally
                             && !(a.material in r.materials && r.materials[a.material].processing == Ready);
        (r, a.(pc := Target(a.pc.after), dropped := if keepsDeletion then a.chunks else {}))
    case EraseIntent =>
      if !a.pc.DroppingIntent? then (r, a)
      else (DropIntent(r, a.material, a.chunks), a.(pc := Target(a.pc.after)))
    case Refresh =>
      if a.pc != Returned then (r, a)
      else if a.material !in r.materials then (r, a.(pc := ToFail(ProcessingFailedCode)))
      else (r, a.(pc := Refreshed(r.materials[a.material].processing == Ready)))
    case Observe =>
      if !a.pc.Refreshed? then (r, a)
      else if LostJob(r, a) then (r, a.(pc := ToCancel))
      else (r, a.(pc := if a.pc.ready then ToSucceed else ToFail(ProcessingFailedCode)))
    case Mark(now) =>
      if !Marks(a.pc) || !Unlocked(w, a.owner) then (r, a)
      else (ApplyMark(r, a, now), a.(pc := Stopped))
  }

  // ---------------------------------------------------------------- service steps

  datatype ServiceStep =
    | Claim(job: JobId, at: Time)
    | CancelJob(material: MaterialId, at: Time)
    | Retry(job: JobId, at: Time)
    | Recover(job: JobId, at: Time, olderThan: Time)
    | CleanIndex(material: MaterialId)
    | CompleteCleanup(job: JobId, immediate: bool, at: Time)
    | StartReprocess(material: MaterialId, at: Time)
    | CompleteReprocess(lease: LeaseId, at: Time)
    | SetDisabled(disabled: bool)

  function WithRows(w: World, r: Rows): World {
    w.(rows := r)
  }

  /** A service call of user `u` (or of recovery on their behalf), under the user lock. */
  function ServiceNext(w: World, u: UserId, step: ServiceStep): World {
    var r := w.rows;
    if !Unlocked(w, u) then w
    else
      match step
      case Claim(j, now) =>
        var (s, number) := ClaimJob(r, u, j, now);
        if number.None? then WithRows(w, s)
        else
          var job := s.jobs[j];
          var a := Attempt(u, j, job.material, job.series, number.value, Fetched, {}, {});
          w.(rows := s, attempts := w.attempts[w.nextLease := a], nextLease := w.nextLease + 1)
      case CancelJob(m, now) => WithRows(w, CancelMaterialJob(r, u, m, now))
      case Retry(j, now) => WithRows(w, RetryJob(r, u, j, now))
      case Recover(j, now, olderThan) => WithRows(w, RecoverJob(r, u, j, now, olderThan))
      case CleanIndex(m) => WithRows(w, CleanupIndex(r, u, m))
      case CompleteCleanup(j, immediate, now) => WithRows(w, FinishCleanup(r, u, j, immediate, now))
      case StartReprocess(m, now) =>
        (match BeginReprocess(r, u, m, w.nextLease, now)
         case Refused => w
         case Requeued(s) => WithRows(w, s)
         case Clearing(s, ids) =>
           w.(rows := s,
              reprocesses := w.reprocesses[w.nextLease := Reprocess(u, m, ids)],
              nextLease := w.nextLease + 1))
      case CompleteReprocess(l, now) =>
        if l !in w.reprocesses || w.reprocesses[l].owner != u then w
        else
          var p := w.reprocesses[l];
          (match FinishReprocess(r, u, p.material, l, p.chunks, now)
           case None => w
           case Some(s) => WithRows(w, s))
      case SetDisabled(disabled) =>
        if u !in r.users then w
        else WithRows(w, r.(users := r.users[u := r.users[u].(disabled := disabled)]))
  }

  // ---------------------------------------------------------------- upload steps

  datatype UploadStep =
    | CommitMetadata(size: nat, hash: Hash)
    | FailStaging
    | StartPut
    | FinishPut
    | RemoveUnverified
    | FailPut
    | PublishMaterial(at: Time, acknowledged: bool)
    | AbortStored
    | AbortPublished
    | CrashUpload
    | KeepUncertain
    | RemoveStored
    | KeepStored
    | RemoveRow
    | MarkForCompensation

  function SetUpload(w: World, m: MaterialId, pc: UploadPc): World
    requires m in w.uploads
  {
    w.(uploads := w.uploads[m := w.uploads[m].(pc := pc)])
  }

  function Release(w: World, u: UserId): World {
    w.(locks := w.locks - {u})
  }

  /** A process that dies lets go of the user row. */
  function ReleaseUpload(w: World, m: MaterialId): World
    requires m in w.uploads
  {
    var u := w.uploads[m].owner;
    if u in w.locks && w.locks[u] == UploadHolds(m) then Release(w, u) else w
  }

  function AddCleaner(w: World, kind: CleanerKind, u: UserId, key: ObjectKey): World {
    w.(cleaners := w.cleaners[w.nextCleaner := Cleaner(kind, u, key, false)],
       nextCleaner := w.nextCleaner + 1)
  }

  /** Nobody deletes a key while a write to it may still land. */
  predicate WriteSettled(w: World, key: ObjectKey) {
    key !in w.inFlight
  }

  function UploadNext(w: World, m: MaterialId, step: UploadStep): World
    requires m in w.uploads
  {
    var r := w.rows;
    var up := w.uploads[m];
    var u := up.owner;
    match step
    case CommitMetadata(size, hash) =>
      if up.pc != Staging || !Unlocked(w, u) then w
      else
        (match CommitUpload(r, u, up.course, m, size, hash)
         case None => SetUpload(w, m, Discarding)
         case Some(s) => SetUpload(WithRows(w, s), m, Committed))
    case FailStaging =>
      if up.pc != Staging then w else SetUpload(w, m, Discarding)
    case StartPut =>
      if up.pc != Committed || !Unlocked(w, u) then w
      else if !MayStartPut(r, u, m) then SetUpload(w, m, Discarding)
      else SetUpload(w, m, Putting).(locks := w.locks[u := UploadHolds(m)],
                                     inFlight := w.inFlight + {up.key})
    case FinishPut =>
      if up.pc != Putting || up.key !in w.objects || !WriteSettled(w, up.key) then w
      else SetUpload(w, m, Stored)
    case RemoveUnverified =>
      if up.pc != Putting || !WriteSettled(w, up.key) then w
      else w.(objects := w.objects - {up.key})
    case FailPut =>
      if up.pc != Putting then w else SetUpload(ReleaseUpload(w, m), m, DiscardingUncertain)
    case PublishMaterial(now, acknowledged) =>
      if up.pc != Stored then w
      else
        (match Publish(r, u, m, now)
         case None => SetUpload(ReleaseUpload(w, m), m, Compensating)
         case Some(s) =>
           SetUpload(ReleaseUpload(WithRows(w, s), m), m, if acknowledged then Over else Compensating))
    case AbortStored =>
      if up.pc != Stored then w else SetUpload(ReleaseUpload(w, m), m, DiscardingStored)
    case AbortPublished =>
      if up.pc != Stored then w else SetUpload(ReleaseUpload(w, m), m, Compensating)
    case CrashUpload => SetUpload(ReleaseUpload(w, m), m, Over)
    case KeepUncertain =>
      if up.pc != DiscardingUncertain then w
      else SetUpload(WithRows(w, KeepReservation(r, m, true)), m, Over)
    case RemoveStored =>
      if up.pc != DiscardingStored then w
      else if !IsReserved(r, m) then SetUpload(w, m, Over)
      else if !WriteSettled(w, up.key) then w
      else SetUpload(w, m, Discarding).(objects := w.objects - {up.key})
    case KeepStored =>
      if up.pc != DiscardingStored then w
      else SetUpload(WithRows(w, KeepReservation(r, m, false)), m, Over)
    case RemoveRow =>
      if up.pc != Discarding then w
      else SetUpload(WithRows(w, DiscardReservation(r, m)), m, Over)
    case MarkForCompensation =>
      if up.pc != Compensating || !Unlocked(w, u) then w
      else
        (match Compensate(r, u, m)
         case None => SetUpload(w, m, Over)
         case Some(s) => SetUpload(AddCleaner(WithRows(w, s), Compensation, u, up.key), m, Over))
  }

  // ---------------------------------------------------------------- storage steps

  datatype StorageStep =
    | ReserveUpload(user: UserId, course: CourseId, objectId: nat)
    | LandWrite(key: ObjectKey)
    | SettleWrite(key: ObjectKey)
    | DeleteMaterial(user: UserId, material: MaterialId, at: Time)
    | RecoverMaterial(material: MaterialId, at: Time)
    | CleanObject(cleaner: nat)
    | FinishCleaning(cleaner: nat, at: Time)
    | MarkCourseDeleting(user: UserId, course: CourseId, at: Time)
    | LockCourse(user: UserId, course: CourseId)
    | LockAccount(user: UserId)
    | CleanLocked(user: UserId, material: MaterialId)
    | CommitCourse(user: UserId)
    | CommitAccount(user: UserId)
    | FailAccount(user: UserId, at: Time)
    | AbortLocked(user: UserId)

  /** What the holder of the lock has to remove before it can commit. */
  function LockedMaterials(w: World, u: UserId): set<MaterialId> {
    if Unlocked(w, u) then {}
    else
      match w.locks[u]
      case UploadHolds(_) => {}
      case CourseHolds(c, _) => set m | m in CourseMaterials(w.rows, u, c) && w.rows.materials[m].storage != Deleted
      case AccountHolds(_) => UserMaterials(w.rows, u)
  }

  function Gone(h: Holder): set<MaterialId> {
    match h
    case UploadHolds(_) => {}
    case CourseHolds(_, gone) => gone
    case AccountHolds(gone) => gone
  }

  function AddGone(h: Holder, m: MaterialId): Holder {
    match h
    case UploadHolds(_) => h
    case CourseHolds(c, gone) => CourseHolds(c, gone + {m})
    case AccountHolds(gone) => AccountHolds(gone + {m})
  }

  function StorageNext(w: World, step: StorageStep): World {
    var r := w.rows;
    match step
    case ReserveUpload(u, c, objectId) =>
      if !Unlocked(w, u) then w
      else
        (match Reserve(r, u, c, objectId)
         case None => w
         case Some(s) =>
           var m := r.nextMaterial;
           w.(rows := s, uploads := w.uploads[m := Upload(u, c, s.materials[m].key, Staging)]))
    case LandWrite(key) =>
      if key !in w.inFlight then w else w.(objects := w.objects + {key})
    case SettleWrite(key) => w.(inFlight := w.inFlight - {key})
    case DeleteMaterial(u, m, now) =>
      if !Unlocked(w, u) then w
      else
        (match BeginDelete(r, u, m, now)
         case None => w
         case Some(s) => AddCleaner(WithRows(w, s), OwnerDelete, u, s.materials[m].key))
    case RecoverMaterial(m, now) =>
      if m !in r.materials || !Unlocked(w, r.materials[m].owner) then w
      else
        var mat := r.materials[m];
        var s := WithRows(w, RecoverStorage(r, m, now));
        if UserExists(r, mat.owner) && RecoverableMaterial(mat, now) && mat.storage != Available
        then AddCleaner(s, Recovery, mat.owner, mat.key)
        else s
    case CleanObject(c) =>
      if c !in w.cleaners || !WriteSettled(w, w.cleaners[c].key) then w
      else w.(objects := w.objects - {w.cleaners[c].key},
              cleaners := w.cleaners[c := w.cleaners[c].(objectGone := true)])
    case FinishCleaning(c, now) =>
      if c !in w.cleaners || !w.cleaners[c].objectGone then w
      else
        var cl := w.cleaners[c];
        var m := cl.key.material;
        (match cl.kind
         case OwnerDelete => if !Unlocked(w, cl.owner) then w else WithRows(w, FinishDelete(r, cl.owner, m))
         case Recovery => if !Unlocked(w, cl.owner) then w else WithRows(w, FinishRecovery(r, m, now))
         case Compensation => WithRows(w, RemoveMaterials(r, {m})))
    case MarkCourseDeleting(u, c, now) =>
      if !Unlocked(w, u) then w
      else
        (match MarkCourse(r, u, c, now)
         case None => w
         case Some(s) => WithRows(w, s))
    case LockCourse(u, c) =>
      if !Unlocked(w, u) || !UserActive(r, u) then w
      else w.(locks := w.locks[u := CourseHolds(c, {})])
    case LockAccount(u) =>
      if !Unlocked(w, u) || u !in r.users then w
      else w.(locks := w.locks[u := AccountHolds({})])
    case CleanLocked(u, m) =>
      if m !in LockedMaterials(w, u) || !WriteSettled(w, r.materials[m].key) then w
      else if w.locks[u].AccountHolds? && BlocksAccount(r.materials[m]) then w
      else w.(objects := w.objects - {r.materials[m].key},
              locks := w.locks[u := AddGone(w.locks[u], m)])
    case CommitCourse(u) =>
      if u !in w.locks || !w.locks[u].CourseHolds? || !(LockedMaterials(w, u) <= Gone(w.locks[u])) then w
      else Release(WithRows(w, RemoveMaterials(r, CourseMaterials(r, u, w.locks[u].course))), u)
    case CommitAccount(u) =>
      if u !in w.locks || !w.locks[u].AccountHolds? || !(LockedMaterials(w, u) <= Gone(w.locks[u])) then w
      else if exists m | m in UserMaterials(r, u) :: BlocksAccount(r.materials[m]) then w
      else Release(WithRows(w, RemoveAccount(r, u)), u)
    case FailAccount(u, now) =>
      if u !in w.locks || !w.locks[u].AccountHolds? then w
      else Release(WithRows(w, FenceAccount(r, u, now)), u)
    case AbortLocked(u) =>
      if u !in w.locks || w.locks[u].UploadHolds? then w else Release(w, u)
  }

  // ---------------------------------------------------------------- runs

  datatype Event =
    | Worker(lease: LeaseId, work: WorkerStep)
    | Service(user: UserId, call: ServiceStep)
    | Uploading(material: MaterialId, upload: UploadStep)
    | Storage(storage: StorageStep)

  function Next(w: World, e: Event): World {
    match e
    case Worker(l, step) =>
      if l !in w.attempts then w
      else
        var (s, a) := WorkerNext(w, l, w.attempts[l], step);
        w.(rows := s, attempts := w.attempts[l := a])
    case Service(u, call) => ServiceNext(w, u, call)
    case Uploading(m, step) => if m !in w.uploads then w else UploadNext(w, m, step)
    case Storage(step) => StorageNext(w, step)
  }

  function Run(w: World, events: seq<Event>): World
    decreases |events|
  {
    if events == [] then w else Run(Next(w, events[0]), events[1..])
  }

  /** Some users, and nothing uploaded yet. */
  function Init(users: map<UserId, User>): World {
    World(Rows(users, map[], map[], 0, 0, Start), map[], map[], 0, map[], map[], 0, map[], {}, {})
  }
}
