/**
 The database rows the material pipeline shares, and a history of what happened to them.

 `History` is not a table: it is the list of events that the properties speak about.
 `Job.series` is likewise bookkeeping, the number of times a retry has reset the job.
 */
module Tables {
  import opened Options

  type UserId = nat
  type CourseId = nat
  type MaterialId = nat
  type JobId = nat
  type LeaseId = nat
  type ChunkId = nat
  type Hash = nat
  type Time = int

  const MAX_ATTEMPTS: nat := 3

  datatype StorageStatus = Reserved | Available | Deleting | Deleted

  datatype ProcessingStatus = Pending | Processing | Ready | ProcessingFailed

  datatype JobStatus = Queued | Running | Succeeded | JobFailed | Cancelled

  /** The error texts that some branch compares against, and the two that none does. */
  datatype Message =
    | NoMessage
    | FailedMessage
    | CancelledMessage
    | IndexCleanupPending
    | StorageCleanupPending

  datatype ErrorCode =
    | NoError
    | ProcessingFailedCode
    | ProcessingCancelledCode
    | MaterialUnavailable
    | CleanupPendingCode
    | WorkerInterrupted
    | MaxAttemptsExceeded

  /** users/{user}/courses/{course}/materials/{material}/objects/{objectId} */
  datatype ObjectKey = ObjectKey(user: UserId, course: CourseId, material: MaterialId, objectId: nat)

  datatype User = User(disabled: bool, fileLimit: nat, storageLimit: nat)

  /** `chunks` holds the ids of the MaterialChunk rows, which are deleted with their material. */
  datatype Material = Material(
    owner: UserId,
    course: CourseId,
    key: ObjectKey,
    storage: StorageStatus,
    uncertain: bool,
    size: nat,
    hash: Option<Hash>,
    processing: ProcessingStatus,
    lease: Option<LeaseId>,
    leaseExpires: Option<Time>,
    message: Message,
    chunks: set<ChunkId>)

  datatype Job = Job(
    owner: UserId,
    material: MaterialId,
    status: JobStatus,
    attemptCount: nat,
    maxAttempts: nat,
    availableAt: Time,
    updatedAt: Time,
    progress: int,
    error: ErrorCode,
    series: nat)

  datatype Note =
    | Wrote(material: MaterialId, lease: LeaseId)
    | Readied(material: MaterialId, lease: LeaseId, job: JobId)
    | Enqueued(job: JobId)
    | Claimed(job: JobId, series: nat, number: nat)
    | Retried(job: JobId)
    | Finished(job: JobId, material: MaterialId)
    | CancelledJobs(jobs: set<JobId>)

  datatype History = Start | Then(past: History, latest: Note)

  datatype Rows = Rows(
    users: map<UserId, User>,
    materials: map<MaterialId, Material>,
    jobs: map<JobId, Job>,
    nextMaterial: MaterialId,
    nextJob: JobId,
    history: History)

  function PutMaterial(r: Rows, m: MaterialId, mat: Material): Rows {
    r.(materials := r.materials[m := mat])
  }

  function PutJob(r: Rows, j: JobId, job: Job): Rows {
    r.(jobs := r.jobs[j := job])
  }

  function Log(r: Rows, note: Note): Rows {
    r.(history := Then(r.history, note))
  }

  /** Deleting a material row takes its jobs and chunk rows with it (ON DELETE CASCADE). */
  function RemoveMaterials(r: Rows, ms: set<MaterialId>): Rows {
    r.(materials := r.materials - ms,
       jobs := map j | j in r.jobs && r.jobs[j].material !in ms :: r.jobs[j])
  }

  /** Only the given jobs and materials may differ, and no row comes or goes. */
  predicate OnlyChanges(r: Rows, s: Rows, js: set<JobId>, ms: set<MaterialId>) {
    && s.users == r.users && s.nextMaterial == r.nextMaterial && s.nextJob == r.nextJob
    && s.jobs.Keys == r.jobs.Keys && s.materials.Keys == r.materials.Keys
    && (forall j | j in r.jobs && j !in js :: s.jobs[j] == r.jobs[j])
    && (forall m | m in r.materials && m !in ms :: s.materials[m] == r.materials[m])
  }

  /** Job `j` and material `m` are now these rows, and no other row differs. */
  predicate Leaves(r: Rows, s: Rows, j: JobId, job: Job, m: MaterialId, mat: Material) {
    && s.users == r.users && s.nextMaterial == r.nextMaterial && s.nextJob == r.nextJob
    && s.jobs == r.jobs[j := job] && s.materials == r.materials[m := mat]
  }

  predicate LeavesJob(r: Rows, s: Rows, j: JobId, job: Job) {
    && s.users == r.users && s.nextMaterial == r.nextMaterial && s.nextJob == r.nextJob
    && s.jobs == r.jobs[j := job] && s.materials == r.materials
  }

  predicate LeavesMaterial(r: Rows, s: Rows, m: MaterialId, mat: Material) {
    && s.users == r.users && s.nextMaterial == r.nextMaterial && s.nextJob == r.nextJob
    && s.jobs == r.jobs && s.materials == r.materials[m := mat]
  }

  predicate UserExists(r: Rows, u: UserId) {
    u in r.users
  }

  predicate UserActive(r: Rows, u: UserId) {
    u in r.users && !r.users[u].disabled
  }

  predicate OwnsMaterial(r: Rows, u: UserId, m: MaterialId) {
    m in r.materials && r.materials[m].owner == u
  }

  predicate OwnsJob(r: Rows, u: UserId, j: JobId) {
    j in r.jobs && r.jobs[j].owner == u
  }

  /** The material is still there, belongs to `u` and its object is available. */
  predicate MaterialAvailable(r: Rows, u: UserId, m: MaterialId) {
    OwnsMaterial(r, u, m) && r.materials[m].storage == Available
  }

  predicate Active(job: Job) {
    job.status == Queued || job.status == Running
  }

  predicate LeaseActive(expires: Option<Time>, now: Time) {
    expires.Some? && expires.value > now
  }

  /** A live lease: the one test that delete, reprocess and recovery share. */
  predicate BeingProcessed(mat: Material, now: Time) {
    mat.processing == Processing && LeaseActive(mat.leaseExpires, now)
  }

  function Unleased(mat: Material): Material {
    mat.(lease := None, leaseExpires := None)
  }

  function Settled(mat: Material, status: ProcessingStatus, message: Message): Material {
    Unleased(mat).(processing := status, message := message)
  }

  function Leased(mat: Material, l: LeaseId, expires: Time): Material {
    mat.(processing := Processing, lease := Some(l), leaseExpires := Some(expires))
  }
}
