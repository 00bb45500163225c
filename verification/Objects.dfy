/**
 No object is ever left without a material row that names it, and the storage status only
 moves forward, however uploads, deletions, recoveries and crashes interleave. The one
 assumption is the guard `WriteSettled`: nobody deletes a key while a write to it may
 still land.
 */
module Objects {
  import opened Options
  import opened Tables
  import opened Jobs
  import opened Materials
  import opened RowInvariants
  import opened Lifecycle
  import opened Leases

  function Rank(s: StorageStatus): nat {
    match s
    case Reserved => 0
    case Available => 1
    case Deleting => 2
    case Deleted => 3
  }

  predicate SameFile(a: Material, b: Material) {
    a.key == b.key && a.owner == b.owner && a.course == b.course && a.size == b.size && a.hash == b.hash
  }

  predicate SameLimits(r: Rows, s: Rows) {
    forall u | u in s.users ::
      u in r.users && s.users[u].fileLimit == r.users[u].fileLimit
      && s.users[u].storageLimit == r.users[u].storageLimit
  }

  /** Rows may go and storage may move forward; nothing is added. */
  predicate StorageMoves(r: Rows, s: Rows) {
    && s.nextMaterial == r.nextMaterial
    && SameLimits(r, s)
    && (forall m | m in s.materials ::
          && m in r.materials
          && SameFile(r.materials[m], s.materials[m])
          && Rank(r.materials[m].storage) <= Rank(s.materials[m].storage))
  }

  /** Nothing about storage changes. */
  predicate SameStorage(r: Rows, s: Rows) {
    && StorageMoves(r, s)
    && s.materials.Keys == r.materials.Keys
    && (forall m | m in s.materials :: s.materials[m].storage == r.materials[m].storage)
  }

  /** A row names the key and has not been tombstoned. */
  predicate Recorded(r: Rows, key: ObjectKey) {
    && key.material in r.materials
    && r.materials[key.material].key == key
    && r.materials[key.material].storage != Deleted
  }

  /** Nothing is stored or about to be stored under the key. */
  predicate Absent(w: World, key: ObjectKey) {
    key !in w.objects && key !in w.inFlight
  }

  predicate Uploads(pc: UploadPc) {
    pc == Putting || pc == Stored
  }

  predicate Unpublished(pc: UploadPc) {
    pc != Compensating && pc != Over
  }

  predicate UploadOk(w: World, m: MaterialId, up: Upload) {
    && up.key.material == m && up.key.user == up.owner && up.key.course == up.course
    && m < w.rows.nextMaterial
    && (m in w.rows.materials ==> w.rows.materials[m].key == up.key)
    && (Uploads(up.pc) ==>
          && IsReserved(w.rows, m)
          && up.owner in w.locks && w.locks[up.owner] == UploadHolds(m))
    && (Unpublished(up.pc) && m in w.rows.materials ==> w.rows.materials[m].storage != Available)
    && (up.pc == Staging || up.pc == Committed || up.pc == Discarding ==> Absent(w, up.key))
    && (up.pc == Stored || up.pc == DiscardingStored ==> WriteSettled(w, up.key))
  }

  predicate CleanerOk(w: World, cl: Cleaner) {
    var m := cl.key.material;
    && cl.owner == cl.key.user
    && m < w.rows.nextMaterial
    && (m in w.rows.materials ==> w.rows.materials[m].key == cl.key && Hidden(w.rows.materials[m]))
    && (cl.objectGone ==> Absent(w, cl.key))
  }

  predicate HolderOk(w: World, u: UserId, h: Holder) {
    && (h.UploadHolds? ==>
          h.material in w.uploads && w.uploads[h.material].owner == u && Uploads(w.uploads[h.material].pc))
    && (forall m | m in Gone(h) :: m < w.rows.nextMaterial)
    && (forall m | m in Gone(h) && m in w.rows.materials ::
          w.rows.materials[m].owner == u && Absent(w, w.rows.materials[m].key))
  }

  predicate KeysOk(r: Rows) {
    forall m | m in r.materials ::
      && m < r.nextMaterial
      && r.materials[m].key.material == m
      && r.materials[m].key.user == r.materials[m].owner
      && r.materials[m].key.course == r.materials[m].course
  }

  predicate ObjectsOk(w: World) {
    && KeysOk(w.rows)
    && (forall k | k in w.objects :: Recorded(w.rows, k))
    && (forall k | k in w.inFlight :: Recorded(w.rows, k))
    && (forall m | m in w.uploads :: UploadOk(w, m, w.uploads[m]))
    && (forall c | c in w.cleaners :: c < w.nextCleaner && CleanerOk(w, w.cleaners[c]))
    && (forall u | u in w.locks :: HolderOk(w, u, w.locks[u]))
  }

  // ---------------------------------------------------------------- steps that leave storage alone

  lemma ChunkEffectSame(r: Rows, l: LeaseId, a: Attempt, step: WorkerStep)
    ensures SameStorage(r, ChunkEffect(r, l, a, step))
  {
  }

  lemma GiveUpSame(r: Rows, j: JobId, code: ErrorCode, now: Time)
    requires j in r.jobs
    ensures SameStorage(r, GiveUp(r, j, code, now))
  {
  }

  lemma FenceSame(r: Rows, j: JobId, now: Time)
    requires j in r.jobs
    ensures SameStorage(r, FenceForCleanup(r, j, now))
  {
  }

  lemma WaitSame(r: Rows, j: JobId, code: ErrorCode, now: Time)
    requires j in r.jobs
    ensures SameStorage(r, WaitForRetry(r, j, code, now))
  {
  }

  lemma SameTrans(a: Rows, b: Rows, c: Rows)
    requires SameStorage(a, b) && SameStorage(b, c)
    ensures SameStorage(a, c)
  {
  }

  lemma SettlingSame(r: Rows, j: JobId, at: Time, now: Time)
    requires j in r.jobs && r.jobs[j].material in r.materials
    ensures SameStorage(r, FinishReady(r, j, now)) && SameStorage(r, Requeue(r, j, at, now))
  {
  }

  lemma MarkFailedSame(r: Rows, u: UserId, j: JobId, code: ErrorCode, attempt: Option<nat>, now: Time)
    ensures SameStorage(r, MarkFailed(r, u, j, code, attempt, now))
  {
    if IsCurrentAttempt(r, u, j, attempt) {
      GiveUpSame(r, j, code, now);
      FenceSame(r, j, now);
      WaitSame(r, j, code, now);
    }
  }

  lemma CancelOneSame(r: Rows, j: JobId, now: Time)
    requires j in r.jobs
    ensures SameStorage(r, CancelOne(r, j, now))
  {
  }

  lemma OutcomeSame(r: Rows, a: Attempt, now: Time)
    ensures SameStorage(r, MarkOutcome(r, a, now))
  {
    match a.pc {
      case ToFail(code) => MarkFailedSame(r, a.owner, a.job, code, Some(a.number), now);
      case ToCancel => if !LostJob(r, a) { CancelOneSame(r, a.job, now); }
      case _ =>
    }
  }

  lemma MarkSame(r: Rows, a: Attempt, now: Time)
    ensures SameStorage(r, ApplyMark(r, a, now))
  {
    if !LostJob(r, a) && Marks(a.pc) {
      var s := DropChunks(r, a.material, a.dropped);
      OutcomeSame(s, a, now);
      SameTrans(r, s, MarkOutcome(s, a, now));
    }
  }

  lemma TakeLeaseSame(r: Rows, u: UserId, j: JobId, number: nat, m: MaterialId, l: LeaseId, now: Time)
    ensures SameStorage(r, TakeLease(r, u, j, number, m, l, now))
  {
  }

  lemma ReportSame(r: Rows, u: UserId, j: JobId, percent: int, attempt: Option<nat>, now: Time)
    ensures SameStorage(r, UpdateProgress(r, u, j, percent, attempt, now))
  {
  }

  lemma MarkReadySame(r: Rows, m: MaterialId, l: LeaseId, j: JobId)
    ensures SameStorage(r, MarkReady(r, m, l, j))
  {
  }

  lemma LeaseStepSame(w: World, l: LeaseId, a: Attempt, step: WorkerStep)
    requires TouchesJob(step) && !step.Mark?
    ensures SameStorage(w.rows, WorkerNext(w, l, a, step).0)
  {
    if step.WriteLease? {
      TakeLeaseSame(w.rows, a.owner, a.job, a.number, a.material, l, step.at);
    } else if step.Report? {
      ReportSame(w.rows, a.owner, a.job, step.percent, Some(a.number), step.at);
    } else {
      MarkReadySame(w.rows, a.material, l, a.job);
    }
  }

  lemma WorkerSame(w: World, l: LeaseId, a: Attempt, step: WorkerStep)
    ensures SameStorage(w.rows, WorkerNext(w, l, a, step).0)
  {
    if step.Mark? {
      MarkSame(w.rows, a, step.at);
    } else if TouchesJob(step) {
      LeaseStepSame(w, l, a, step);
    } else {
      ChunkEffectIsIt(w, l, a, step);
      ChunkEffectSame(w.rows, l, a, step);
    }
  }

  lemma CancelSame(r: Rows, u: UserId, m: MaterialId, now: Time)
    ensures SameStorage(r, CancelJobsForMaterial(r, u, m, now))
  {
  }

  lemma RetrySame(r: Rows, u: UserId, j: JobId, now: Time)
    ensures SameStorage(r, RetryJob(r, u, j, now))
  {
  }

  lemma RecoverSame(r: Rows, u: UserId, j: JobId, now: Time, olderThan: Time)
    ensures SameStorage(r, RecoverJob(r, u, j, now, olderThan))
  {
    if OwnsJob(r, u, j) {
      if MaterialAvailable(r, u, r.jobs[j].material) {
        GiveUpSame(r, j, WorkerInterrupted, now);
        FenceSame(r, j, now);
        SettlingSame(r, j, now, now);
      }
    }
  }

  lemma FinishCleanupSame(r: Rows, u: UserId, j: JobId, immediate: bool, now: Time)
    ensures SameStorage(r, FinishCleanup(r, u, j, immediate, now))
  {
    if OwnsJob(r, u, j) {
      if MaterialAvailable(r, u, r.jobs[j].material) {
        GiveUpSame(r, j, WorkerInterrupted, now);
        SettlingSame(r, j, now, now);
        SettlingSame(r, j, now + RetryDelay(r.jobs[j].attemptCount), now);
      }
    }
  }

  lemma ClaimSame(r: Rows, u: UserId, j: JobId, now: Time)
    ensures SameStorage(r, ClaimJob(r, u, j, now).0)
  {
  }

  lemma CancelMaterialJobSame(r: Rows, u: UserId, m: MaterialId, now: Time)
    ensures SameStorage(r, CancelMaterialJob(r, u, m, now))
  {
  }

  lemma SameThenPut(r: Rows, s: Rows, m: MaterialId, mat: Material, u: UserId, now: Time)
    requires SameStorage(r, s) && m in s.materials
    requires SameFile(s.materials[m], mat) && mat.storage == s.materials[m].storage
    ensures SameStorage(r, PutMaterial(s, m, mat))
    ensures CreateJob(PutMaterial(s, m, mat), u, m, now).Some? ==>
              SameStorage(r, CreateJob(PutMaterial(s, m, mat), u, m, now).value)
  {
  }

  lemma ReprocessSame(r: Rows, u: UserId, m: MaterialId, l: LeaseId, now: Time)
    ensures BeginReprocess(r, u, m, l, now) != Refused ==> SameStorage(r, BeginReprocess(r, u, m, l, now).rows)
  {
    var s := CancelJobsForMaterial(r, u, m, now);
    CancelSame(r, u, m, now);
    if m in s.materials {
      var mat := s.materials[m];
      SameThenPut(r, s, m, Settled(mat, Pending, NoMessage), u, now);
      SameThenPut(r, s, m, Leased(mat, l, now + LEASE_DURATION).(message := IndexCleanupPending), u, now);
    }
  }

  lemma FinishReprocessSame(r: Rows, u: UserId, m: MaterialId, l: LeaseId, ids: set<ChunkId>, now: Time)
    ensures FinishReprocess(r, u, m, l, ids, now).Some? ==>
              SameStorage(r, FinishReprocess(r, u, m, l, ids, now).value)
  {
    if m in r.materials {
      SameThenPut(r, r, m, Settled(r.materials[m], Pending, NoMessage).(chunks := {}), u, now);
    }
  }

  lemma CallSame(w: World, u: UserId, call: ServiceStep)
    ensures SameStorage(w.rows, CallEffect(w, u, call))
  {
    var r := w.rows;
    match call {
      case Claim(j, now) => ClaimSame(r, u, j, now);
      case CancelJob(m, now) => CancelMaterialJobSame(r, u, m, now);
      case Retry(j, now) => RetrySame(r, u, j, now);
      case Recover(j, now, olderThan) => RecoverSame(r, u, j, now, olderThan);
      case CompleteCleanup(j, immediate, now) => FinishCleanupSame(r, u, j, immediate, now);
      case StartReprocess(m, now) => ReprocessSame(r, u, m, w.nextLease, now);
      case CompleteReprocess(l, now) =>
        if l in w.reprocesses {
          FinishReprocessSame(r, u, w.reprocesses[l].material, l, w.reprocesses[l].chunks, now);
        }
      case _ =>
    }
  }

  lemma ServiceSame(w: World, u: UserId, call: ServiceStep)
    ensures SameStorage(w.rows, ServiceNext(w, u, call).rows)
  {
    if Clears(w, u, call) {
      ReprocessSame(w.rows, u, call.material, w.nextLease, call.at);
    } else {
      CallEffectIsIt(w, u, call);
      CallSame(w, u, call);
    }
  }

  // ---------------------------------------------------------------- the object invariant

  /** No upload is writing the object of this material. */
  predicate Idle(w: World, m: MaterialId) {
    m in w.uploads ==> !Uploads(w.uploads[m].pc)
  }

  lemma UnlockedIsIdle(w: World, m: MaterialId)
    requires ObjectsOk(w) && m in w.rows.materials && Unlocked(w, w.rows.materials[m].owner)
    ensures Idle(w, m)
  {
    if m in w.uploads {
      assert UploadOk(w, m, w.uploads[m]);
    }
  }

  predicate SameTables(w: World, v: World) {
    v == w.(rows := v.rows, attempts := v.attempts, reprocesses := v.reprocesses, nextLease := v.nextLease)
  }

  /** Idle materials may be marked as deleting at any time. */
  lemma HidingKeeps(w: World, v: World)
    requires ObjectsOk(w) && SameTables(w, v) && StorageMoves(w.rows, v.rows)
    requires v.rows.materials.Keys == w.rows.materials.Keys
    requires forall m | m in v.rows.materials ::
               || v.rows.materials[m].storage == w.rows.materials[m].storage
               || (v.rows.materials[m].storage == Deleting && Idle(w, m))
    ensures ObjectsOk(v)
  {
    forall m | m in v.uploads ensures UploadOk(v, m, v.uploads[m]) {
      assert UploadOk(w, m, w.uploads[m]);
    }
    forall c | c in v.cleaners ensures CleanerOk(v, v.cleaners[c]) {
      assert CleanerOk(w, w.cleaners[c]);
    }
    forall u | u in v.locks ensures HolderOk(v, u, v.locks[u]) {
      assert HolderOk(w, u, w.locks[u]);
    }
  }

  /** A row may be tombstoned or removed once nothing is left under its key. */
  lemma GoneKeeps(w: World, v: World)
    requires ObjectsOk(w) && SameTables(w, v) && StorageMoves(w.rows, v.rows)
    requires forall m | m in w.rows.materials ::
               || (m in v.rows.materials && v.rows.materials[m].storage == w.rows.materials[m].storage)
               || (m in v.rows.materials && v.rows.materials[m].storage == Deleted
                   && Idle(w, m) && Absent(w, w.rows.materials[m].key))
               || (m !in v.rows.materials && Idle(w, m) && Absent(w, w.rows.materials[m].key))
    ensures ObjectsOk(v)
  {
    forall m | m in v.uploads ensures UploadOk(v, m, v.uploads[m]) {
      assert UploadOk(w, m, w.uploads[m]);
    }
    forall c | c in v.cleaners ensures CleanerOk(v, v.cleaners[c]) {
      assert CleanerOk(w, w.cleaners[c]);
    }
    forall u | u in v.locks ensures HolderOk(v, u, v.locks[u]) {
      assert HolderOk(w, u, w.locks[u]);
    }
    forall k | k in w.objects || k in w.inFlight ensures Recorded(v.rows, k) {
      assert Recorded(w.rows, k);
    }
  }

  lemma SameStorageKeeps(w: World, v: World)
    requires ObjectsOk(w) && SameStorage(w.rows, v.rows) && SameTables(w, v)
    ensures ObjectsOk(v)
  {
    HidingKeeps(w, v);
  }

  predicate MayEnter(w: World, up: Upload, pc: UploadPc) {
    && !Uploads(pc)
    && (pc == Staging || pc == Committed || pc == Discarding ==> Absent(w, up.key))
    && (pc == DiscardingStored ==> WriteSettled(w, up.key))
    && (Unpublished(pc) ==> Unpublished(up.pc))
  }

  /** An upload that is not writing moves on. */
  lemma MoveKeeps(w: World, m: MaterialId, pc: UploadPc)
    requires ObjectsOk(w) && m in w.uploads && MayEnter(w, w.uploads[m], pc) && !Uploads(w.uploads[m].pc)
    ensures ObjectsOk(SetUpload(w, m, pc))
  {
    var v := SetUpload(w, m, pc);
    assert UploadOk(w, m, w.uploads[m]);
    forall u | u in v.locks ensures HolderOk(v, u, v.locks[u]) {
      assert HolderOk(w, u, w.locks[u]);
    }
  }

  /** An upload stops writing and lets go of the lock. */
  lemma ExitKeeps(w: World, m: MaterialId, pc: UploadPc)
    requires ObjectsOk(w) && m in w.uploads && MayEnter(w, w.uploads[m], pc) && Uploads(w.uploads[m].pc)
    ensures ObjectsOk(SetUpload(Release(w, w.uploads[m].owner), m, pc))
  {
    var v := SetUpload(Release(w, w.uploads[m].owner), m, pc);
    assert UploadOk(w, m, w.uploads[m]);
    forall k | k in v.uploads ensures UploadOk(v, k, v.uploads[k]) {
      assert UploadOk(w, k, w.uploads[k]);
    }
    forall u | u in v.locks ensures HolderOk(v, u, v.locks[u]) {
      assert HolderOk(w, u, w.locks[u]);
    }
  }

  lemma LeaveKeeps(w: World, m: MaterialId, pc: UploadPc)
    requires ObjectsOk(w) && m in w.uploads && MayEnter(w, w.uploads[m], pc)
    ensures ObjectsOk(SetUpload(ReleaseUpload(w, m), m, pc))
  {
    var u := w.uploads[m].owner;
    assert UploadOk(w, m, w.uploads[m]);
    if Uploads(w.uploads[m].pc) {
      ExitKeeps(w, m, pc);
    } else {
      if u in w.locks {
        assert HolderOk(w, u, w.locks[u]);
      }
      MoveKeeps(w, m, pc);
    }
  }

  lemma AddCleanerKeeps(w: World, kind: CleanerKind, m: MaterialId)
    requires ObjectsOk(w) && m in w.rows.materials && Hidden(w.rows.materials[m])
    ensures ObjectsOk(AddCleaner(w, kind, w.rows.materials[m].owner, w.rows.materials[m].key))
  {
  }

  /** What was stored under a settled key is removed; its row still records the key. */
  lemma RemoveObjectKeeps(w: World, key: ObjectKey)
    requires ObjectsOk(w)
    ensures ObjectsOk(w.(objects := w.objects - {key}))
  {
  }

  lemma CommitMetadataKeeps(w: World, m: MaterialId, step: UploadStep)
    requires ObjectsOk(w) && m in w.uploads && step.CommitMetadata?
    ensures ObjectsOk(UploadNext(w, m, step))
  {
    var up := w.uploads[m];
    assert UploadOk(w, m, up);
    if up.pc == Staging && Unlocked(w, up.owner) {
      match CommitUpload(w.rows, up.owner, up.course, m, step.size, step.hash) {
        case None => MoveKeeps(w, m, Discarding);
        case Some(s) =>
          MetadataKeeps(w, m, step.size, step.hash);
          MoveKeeps(WithRows(w, s), m, Committed);
      }
    }
  }

  lemma MetadataKeeps(w: World, m: MaterialId, size: nat, hash: Hash)
    requires ObjectsOk(w) && m in w.rows.materials
    ensures ObjectsOk(WithRows(w, PutMaterial(w.rows, m, w.rows.materials[m].(size := size, hash := Some(hash)))))
  {
  }

  lemma StartPutKeeps(w: World, m: MaterialId)
    requires ObjectsOk(w) && m in w.uploads
    ensures ObjectsOk(UploadNext(w, m, StartPut))
  {
    var up := w.uploads[m];
    assert UploadOk(w, m, up);
    if up.pc == Committed && Unlocked(w, up.owner) {
      if !MayStartPut(w.rows, up.owner, m) {
        MoveKeeps(w, m, Discarding);
      } else {
        PuttingKeeps(w, m);
      }
    }
  }

  lemma PuttingKeeps(w: World, m: MaterialId)
    requires ObjectsOk(w) && m in w.uploads && w.uploads[m].pc == Committed
    requires Unlocked(w, w.uploads[m].owner) && MayStartPut(w.rows, w.uploads[m].owner, m)
    ensures ObjectsOk(UploadNext(w, m, StartPut))
  {
    var up := w.uploads[m];
    var v := UploadNext(w, m, StartPut);
    assert UploadOk(w, m, up);
    forall k | k in v.uploads ensures UploadOk(v, k, v.uploads[k]) {
      assert UploadOk(w, k, w.uploads[k]);
    }
    forall c | c in v.cleaners ensures CleanerOk(v, v.cleaners[c]) {
      assert CleanerOk(w, w.cleaners[c]);
    }
    forall u | u in v.locks ensures HolderOk(v, u, v.locks[u]) {
      if u in w.locks {
        assert HolderOk(w, u, w.locks[u]);
      }
    }
  }

  lemma PublishMoves(r: Rows, u: UserId, m: MaterialId, now: Time)
    requires IsReserved(r, m) && Publish(r, u, m, now).Some?
    ensures var s := Publish(r, u, m, now).value;
            && StorageMoves(r, s) && s.materials.Keys == r.materials.Keys
            && s.materials[m].storage == Available
            && (forall k | k in s.materials && k != m :: s.materials[k] == r.materials[k])
  {
  }

  lemma PublishKeeps(w: World, m: MaterialId, step: UploadStep)
    requires ObjectsOk(w) && m in w.uploads && step.PublishMaterial?
    ensures ObjectsOk(UploadNext(w, m, step))
  {
    var up := w.uploads[m];
    if up.pc == Stored {
      assert UploadOk(w, m, up);
      match Publish(w.rows, up.owner, m, step.at) {
        case None => LeaveKeeps(w, m, Compensating);
        case Some(s) =>
          var pc := if step.acknowledged then Over else Compensating;
          var v := SetUpload(ReleaseUpload(w, m), m, pc);
          LeaveKeeps(w, m, pc);
          PublishMoves(w.rows, up.owner, m, step.at);
          AvailableKeeps(v, m, s);
          assert WithRows(v, s) == UploadNext(w, m, step);
      }
    }
  }

  lemma AvailableKeeps(w: World, m: MaterialId, s: Rows)
    requires ObjectsOk(w) && m in w.uploads && !Unpublished(w.uploads[m].pc) && IsReserved(w.rows, m)
    requires StorageMoves(w.rows, s) && s.materials.Keys == w.rows.materials.Keys
    requires s.materials[m].storage == Available
    requires forall k | k in s.materials && k != m :: s.materials[k] == w.rows.materials[k]
    ensures ObjectsOk(WithRows(w, s))
  {
    var v := WithRows(w, s);
    forall k | k in v.uploads ensures UploadOk(v, k, v.uploads[k]) {
      assert UploadOk(w, k, w.uploads[k]);
    }
    forall c | c in v.cleaners ensures CleanerOk(v, v.cleaners[c]) {
      assert CleanerOk(w, w.cleaners[c]);
    }
    forall u | u in v.locks ensures HolderOk(v, u, v.locks[u]) {
      assert HolderOk(w, u, w.locks[u]);
    }
  }

  lemma StoredKeeps(w: World, m: MaterialId)
    requires ObjectsOk(w) && m in w.uploads
    ensures ObjectsOk(UploadNext(w, m, FinishPut))
  {
    if w.uploads[m].pc == Putting && WriteSettled(w, w.uploads[m].key) {
      var v := SetUpload(w, m, Stored);
      assert UploadOk(w, m, w.uploads[m]);
      forall u | u in v.locks ensures HolderOk(v, u, v.locks[u]) {
        assert HolderOk(w, u, w.locks[u]);
      }
    }
  }

  /** The steps of an upload that give up and touch no row. */
  lemma GivingUpKeeps(w: World, m: MaterialId, step: UploadStep)
    requires ObjectsOk(w) && m in w.uploads
    requires step.FailStaging? || step.FailPut? || step.AbortStored? || step.AbortPublished? || step.CrashUpload?
    ensures ObjectsOk(UploadNext(w, m, step))
  {
    var up := w.uploads[m];
    assert UploadOk(w, m, up);
    match step {
      case FailStaging => if up.pc == Staging { MoveKeeps(w, m, Discarding); }
      case FailPut => if up.pc == Putting { LeaveKeeps(w, m, DiscardingUncertain); }
      case AbortStored => if up.pc == Stored { LeaveKeeps(w, m, DiscardingStored); }
      case AbortPublished => if up.pc == Stored { LeaveKeeps(w, m, Compensating); }
      case CrashUpload => LeaveKeeps(w, m, Over);
    }
  }

  /** At most the row of `m` changes, and only to deleting. */
  predicate HidesRow(r: Rows, s: Rows, m: MaterialId) {
    && StorageMoves(r, s) && s.materials.Keys == r.materials.Keys
    && (forall k | k in s.materials ::
          s.materials[k].storage == r.materials[k].storage || (k == m && s.materials[k].storage == Deleting))
  }

  lemma KeepReservationHides(r: Rows, m: MaterialId, uncertain: bool)
    ensures HidesRow(r, KeepReservation(r, m, uncertain), m)
  {
  }

  lemma CompensateHides(r: Rows, u: UserId, m: MaterialId)
    requires Compensate(r, u, m).Some?
    ensures HidesRow(r, Compensate(r, u, m).value, m)
  {
  }

  lemma KeepRowKeeps(w: World, m: MaterialId, step: UploadStep)
    requires ObjectsOk(w) && m in w.uploads && (step.KeepUncertain? || step.KeepStored?)
    ensures ObjectsOk(UploadNext(w, m, step))
  {
    var up := w.uploads[m];
    if up.pc == (if step.KeepUncertain? then DiscardingUncertain else DiscardingStored) {
      var s := KeepReservation(w.rows, m, step.KeepUncertain?);
      KeepReservationHides(w.rows, m, step.KeepUncertain?);
      HidingKeeps(w, WithRows(w, s));
      MoveKeeps(WithRows(w, s), m, Over);
    }
  }

  lemma DiscardedIsGone(w: World, m: MaterialId)
    requires ObjectsOk(w) && m in w.uploads && w.uploads[m].pc == Discarding
    ensures ObjectsOk(WithRows(w, DiscardReservation(w.rows, m)))
  {
    assert UploadOk(w, m, w.uploads[m]);
    RemoveRowMoves(w.rows, m);
    GoneKeeps(w, WithRows(w, DiscardReservation(w.rows, m)));
  }

  lemma RemoveRowKeeps(w: World, m: MaterialId)
    requires ObjectsOk(w) && m in w.uploads
    ensures ObjectsOk(UploadNext(w, m, RemoveRow))
  {
    var up := w.uploads[m];
    if up.pc == Discarding {
      DiscardedIsGone(w, m);
      MoveKeeps(WithRows(w, DiscardReservation(w.rows, m)), m, Over);
    }
  }

  lemma ObjectRemovedKeeps(w: World, m: MaterialId)
    requires ObjectsOk(w) && m in w.uploads && w.uploads[m].pc == DiscardingStored && WriteSettled(w, w.uploads[m].key)
    ensures ObjectsOk(SetUpload(w, m, Discarding).(objects := w.objects - {w.uploads[m].key}))
  {
    var v := w.(objects := w.objects - {w.uploads[m].key});
    RemoveObjectKeeps(w, w.uploads[m].key);
    MoveKeeps(v, m, Discarding);
  }

  lemma RemoveStoredKeeps(w: World, m: MaterialId)
    requires ObjectsOk(w) && m in w.uploads
    ensures ObjectsOk(UploadNext(w, m, RemoveStored))
  {
    if w.uploads[m].pc == DiscardingStored {
      if !IsReserved(w.rows, m) {
        MoveKeeps(w, m, Over);
      } else if WriteSettled(w, w.uploads[m].key) {
        ObjectRemovedKeeps(w, m);
      }
    }
  }

  lemma CompensationKeeps(w: World, m: MaterialId)
    requires ObjectsOk(w) && m in w.uploads
    ensures ObjectsOk(UploadNext(w, m, MarkForCompensation))
  {
    var up := w.uploads[m];
    assert UploadOk(w, m, up);
    if up.pc == Compensating && Unlocked(w, up.owner) {
      match Compensate(w.rows, up.owner, m) {
        case None => MoveKeeps(w, m, Over);
        case Some(s) =>
          CompensateHides(w.rows, up.owner, m);
          HidingKeeps(w, WithRows(w, s));
          AddCleanerKeeps(WithRows(w, s), Compensation, m);
          MoveKeeps(AddCleaner(WithRows(w, s), Compensation, up.owner, up.key), m, Over);
      }
    }
  }

  lemma UploadKeepsObjects(w: World, m: MaterialId, step: UploadStep)
    requires ObjectsOk(w)
    ensures ObjectsOk(Next(w, Uploading(m, step)))
  {
    if m in w.uploads {
      match step {
        case CommitMetadata(_, _) => CommitMetadataKeeps(w, m, step);
        case StartPut => StartPutKeeps(w, m);
        case PublishMaterial(_, _) => PublishKeeps(w, m, step);
        case RemoveStored => RemoveStoredKeeps(w, m);
        case MarkForCompensation => CompensationKeeps(w, m);
        case KeepUncertain => KeepRowKeeps(w, m, step);
        case KeepStored => KeepRowKeeps(w, m, step);
        case RemoveRow => RemoveRowKeeps(w, m);
        case FinishPut => StoredKeeps(w, m);
        case RemoveUnverified => RemoveObjectKeeps(w, w.uploads[m].key);
        case _ => GivingUpKeeps(w, m, step);
      }
    }
  }

  // ---------------------------------------------------------------- storage steps

  /** A reservation adds one row and the upload that will fill it. */
  predicate AddsRow(w: World, v: World, row: Material) {
    var m := w.rows.nextMaterial;
    && row.storage == StorageStatus.Reserved
    && row.key.user == row.owner && row.key.course == row.course && row.key.material == m
    && v == w.(rows := PutMaterial(w.rows, m, row).(nextMaterial := m + 1),
               uploads := w.uploads[m := Upload(row.owner, row.course, row.key, Staging)])
  }

  lemma AddedUploads(w: World, v: World, row: Material)
    requires ObjectsOk(w) && AddsRow(w, v, row)
    ensures forall m | m in v.uploads :: UploadOk(v, m, v.uploads[m])
  {
    forall m | m in v.uploads ensures UploadOk(v, m, v.uploads[m]) {
      if m != w.rows.nextMaterial {
        assert UploadOk(w, m, w.uploads[m]);
      }
    }
  }

  lemma AddedHolders(w: World, v: World, row: Material)
    requires ObjectsOk(w) && AddsRow(w, v, row)
    ensures forall u | u in v.locks :: HolderOk(v, u, v.locks[u])
    ensures forall c | c in v.cleaners :: c < v.nextCleaner && CleanerOk(v, v.cleaners[c])
  {
    forall u | u in v.locks ensures HolderOk(v, u, v.locks[u]) {
      assert HolderOk(w, u, w.locks[u]);
      if w.locks[u].UploadHolds? {
        assert UploadOk(w, w.locks[u].material, w.uploads[w.locks[u].material]);
      }
    }
    forall c | c in v.cleaners ensures CleanerOk(v, v.cleaners[c]) {
      assert CleanerOk(w, w.cleaners[c]);
    }
  }

  lemma ReserveKeeps(w: World, u: UserId, c: CourseId, objectId: nat)
    requires ObjectsOk(w)
    ensures ObjectsOk(StorageNext(w, ReserveUpload(u, c, objectId)))
  {
    if Unlocked(w, u) && Reserve(w.rows, u, c, objectId).Some? {
      var v := StorageNext(w, ReserveUpload(u, c, objectId));
      var row := v.rows.materials[w.rows.nextMaterial];
      AddedUploads(w, v, row);
      AddedHolders(w, v, row);
    }
  }

  lemma WriteKeeps(w: World, step: StorageStep)
    requires ObjectsOk(w) && (step.LandWrite? || step.SettleWrite?)
    ensures ObjectsOk(StorageNext(w, step))
  {
    var v := StorageNext(w, step);
    forall m | m in v.uploads ensures UploadOk(v, m, v.uploads[m]) {
      assert UploadOk(w, m, w.uploads[m]);
    }
    forall u | u in v.locks ensures HolderOk(v, u, v.locks[u]) {
      assert HolderOk(w, u, w.locks[u]);
    }
  }

  lemma CleanObjectKeeps(w: World, c: nat)
    requires ObjectsOk(w)
    ensures ObjectsOk(StorageNext(w, CleanObject(c)))
  {
    if c in w.cleaners {
      RemoveObjectKeeps(w, w.cleaners[c].key);
    }
  }

  lemma AddGoneKeeps(w: World, u: UserId, m: MaterialId)
    requires ObjectsOk(w) && u in w.locks && m in w.rows.materials
    requires w.rows.materials[m].owner == u && Absent(w, w.rows.materials[m].key)
    ensures ObjectsOk(w.(locks := w.locks[u := AddGone(w.locks[u], m)]))
  {
    var v := w.(locks := w.locks[u := AddGone(w.locks[u], m)]);
    forall k | k in v.uploads ensures UploadOk(v, k, v.uploads[k]) {
      assert UploadOk(w, k, w.uploads[k]);
    }
    forall x | x in v.locks ensures HolderOk(v, x, v.locks[x]) {
      assert HolderOk(w, x, w.locks[x]);
    }
  }

  lemma CleanLockedKeeps(w: World, u: UserId, m: MaterialId)
    requires ObjectsOk(w)
    ensures ObjectsOk(StorageNext(w, CleanLocked(u, m)))
  {
    if m in LockedMaterials(w, u) && WriteSettled(w, w.rows.materials[m].key) {
      RemoveObjectKeeps(w, w.rows.materials[m].key);
      AddGoneKeeps(w.(objects := w.objects - {w.rows.materials[m].key}), u, m);
    }
  }

  lemma TakeLockKeeps(w: World, u: UserId, h: Holder)
    requires ObjectsOk(w) && Unlocked(w, u) && !h.UploadHolds? && Gone(h) == {}
    ensures ObjectsOk(w.(locks := w.locks[u := h]))
  {
    var v := w.(locks := w.locks[u := h]);
    forall m | m in v.uploads ensures UploadOk(v, m, v.uploads[m]) {
      assert UploadOk(w, m, w.uploads[m]);
    }
  }

  lemma LockKeeps(w: World, step: StorageStep)
    requires ObjectsOk(w) && (step.LockCourse? || step.LockAccount? || step.AbortLocked?)
    ensures ObjectsOk(StorageNext(w, step))
  {
    match step {
      case LockCourse(u, c) => if Unlocked(w, u) { TakeLockKeeps(w, u, CourseHolds(c, {})); }
      case LockAccount(u) => if Unlocked(w, u) { TakeLockKeeps(w, u, AccountHolds({})); }
      case AbortLocked(u) => if u in w.locks && !w.locks[u].UploadHolds? { ReleaseKeeps(w, u); }
    }
  }

  lemma BeginDeleteMoves(r: Rows, u: UserId, m: MaterialId, now: Time)
    requires BeginDelete(r, u, m, now).Some?
    ensures var s := BeginDelete(r, u, m, now).value;
            && StorageMoves(r, s) && s.materials.Keys == r.materials.Keys
            && s.materials[m].storage == Deleting
            && r.materials[m].storage != Reserved
            && (forall k | k in s.materials && k != m :: s.materials[k].storage == r.materials[k].storage)
  {
    CancelSame(r, u, m, now);
  }

  lemma DeleteKeeps(w: World, u: UserId, m: MaterialId, now: Time)
    requires ObjectsOk(w)
    ensures ObjectsOk(StorageNext(w, DeleteMaterial(u, m, now)))
  {
    if Unlocked(w, u) && BeginDelete(w.rows, u, m, now).Some? {
      var s := BeginDelete(w.rows, u, m, now).value;
      BeginDeleteMoves(w.rows, u, m, now);
      UnlockedIsIdle(w, m);
      HidingKeeps(w, WithRows(w, s));
      AddCleanerKeeps(WithRows(w, s), OwnerDelete, m);
    }
  }

  lemma RecoverMoves(r: Rows, m: MaterialId, now: Time)
    requires m in r.materials
    ensures var s := RecoverStorage(r, m, now);
            && StorageMoves(r, s) && s.materials.Keys == r.materials.Keys
            && (s.materials[m].storage == r.materials[m].storage || s.materials[m].storage == Deleting)
            && (forall k | k in s.materials && k != m :: s.materials[k] == r.materials[k])
  {
  }

  lemma RecoverKeeps(w: World, m: MaterialId, now: Time)
    requires ObjectsOk(w)
    ensures ObjectsOk(StorageNext(w, RecoverMaterial(m, now)))
  {
    if m in w.rows.materials && Unlocked(w, w.rows.materials[m].owner) {
      var s := RecoverStorage(w.rows, m, now);
      UnlockedIsIdle(w, m);
      RecoverMoves(w.rows, m, now);
      HidingKeeps(w, WithRows(w, s));
      if Hidden(s.materials[m]) {
        AddCleanerKeeps(WithRows(w, s), Recovery, m);
      }
    }
  }

  /** Only row `m` changes, and only to a tombstone or away. */
  predicate ClearsRow(r: Rows, s: Rows, m: MaterialId) {
    && StorageMoves(r, s)
    && (forall k | k in r.materials && k != m :: k in s.materials && s.materials[k] == r.materials[k])
    && (m in s.materials ==> s.materials[m].storage == r.materials[m].storage || s.materials[m].storage == Deleted)
  }

  lemma FinishDeleteMoves(r: Rows, u: UserId, m: MaterialId)
    ensures ClearsRow(r, FinishDelete(r, u, m), m)
  {
  }

  lemma FinishRecoveryMoves(r: Rows, m: MaterialId, now: Time)
    ensures ClearsRow(r, FinishRecovery(r, m, now), m)
  {
  }

  lemma RemoveRowMoves(r: Rows, m: MaterialId)
    ensures ClearsRow(r, RemoveMaterials(r, {m}), m) && ClearsRow(r, r, m)
  {
  }

  lemma CleaningMoves(w: World, c: nat, now: Time)
    requires c in w.cleaners
    ensures var v := StorageNext(w, FinishCleaning(c, now));
            v == WithRows(w, v.rows) && ClearsRow(w.rows, v.rows, w.cleaners[c].key.material)
  {
    var m := w.cleaners[c].key.material;
    RemoveRowMoves(w.rows, m);
    match w.cleaners[c].kind {
      case OwnerDelete => FinishDeleteMoves(w.rows, w.cleaners[c].owner, m);
      case Recovery => FinishRecoveryMoves(w.rows, m, now);
      case Compensation =>
    }
  }

  lemma FinishCleaningKeeps(w: World, c: nat, now: Time)
    requires ObjectsOk(w)
    ensures ObjectsOk(StorageNext(w, FinishCleaning(c, now)))
  {
    if c in w.cleaners && w.cleaners[c].objectGone {
      var m := w.cleaners[c].key.material;
      assert CleanerOk(w, w.cleaners[c]);
      if m in w.uploads {
        assert UploadOk(w, m, w.uploads[m]);
      }
      CleaningMoves(w, c, now);
      GoneKeeps(w, StorageNext(w, FinishCleaning(c, now)));
    }
  }

  lemma MarkCourseMoves(r: Rows, u: UserId, c: CourseId, now: Time)
    requires MarkCourse(r, u, c, now).Some?
    ensures StorageMoves(r, MarkCourse(r, u, c, now).value)
  {
  }

  lemma MarkCourseKeeps(w: World, u: UserId, c: CourseId, now: Time)
    requires ObjectsOk(w)
    ensures ObjectsOk(StorageNext(w, MarkCourseDeleting(u, c, now)))
  {
    if Unlocked(w, u) && MarkCourse(w.rows, u, c, now).Some? {
      var s := MarkCourse(w.rows, u, c, now).value;
      MarkCourseMoves(w.rows, u, c, now);
      forall m | m in s.materials && s.materials[m].storage != w.rows.materials[m].storage
        ensures s.materials[m].storage == Deleting && Idle(w, m)
      {
        UnlockedIsIdle(w, m);
      }
      HidingKeeps(w, WithRows(w, s));
    }
  }

  /** Everything the holder of the lock still sees has lost its object. */
  lemma LockedAreGone(w: World, u: UserId, m: MaterialId)
    requires ObjectsOk(w) && u in w.locks && !w.locks[u].UploadHolds?
    requires m in w.rows.materials && w.rows.materials[m].owner == u
    ensures Idle(w, m)
    ensures m in Gone(w.locks[u]) || w.rows.materials[m].storage == Deleted ==> Absent(w, w.rows.materials[m].key)
  {
    assert HolderOk(w, u, w.locks[u]);
    if m in w.uploads {
      assert UploadOk(w, m, w.uploads[m]);
    }
  }

  lemma ReleaseKeeps(w: World, u: UserId)
    requires ObjectsOk(w) && u in w.locks && !w.locks[u].UploadHolds?
    ensures ObjectsOk(Release(w, u))
  {
  }

  lemma CommitCourseKeeps(w: World, u: UserId)
    requires ObjectsOk(w)
    ensures ObjectsOk(StorageNext(w, CommitCourse(u)))
  {
    if u in w.locks && w.locks[u].CourseHolds? && LockedMaterials(w, u) <= Gone(w.locks[u]) {
      var ms := CourseMaterials(w.rows, u, w.locks[u].course);
      var v := WithRows(w, RemoveMaterials(w.rows, ms));
      forall m | m in ms ensures Idle(w, m) && Absent(w, w.rows.materials[m].key) {
        LockedAreGone(w, u, m);
      }
      GoneKeeps(w, v);
      ReleaseKeeps(v, u);
    }
  }

  lemma CommitAccountKeeps(w: World, u: UserId)
    requires ObjectsOk(w)
    ensures ObjectsOk(StorageNext(w, CommitAccount(u)))
  {
    if u in w.locks && w.locks[u].AccountHolds? && LockedMaterials(w, u) <= Gone(w.locks[u]) {
      var v := WithRows(w, RemoveAccount(w.rows, u));
      forall m | m in UserMaterials(w.rows, u) ensures Idle(w, m) && Absent(w, w.rows.materials[m].key) {
        LockedAreGone(w, u, m);
      }
      GoneKeeps(w, v);
      ReleaseKeeps(v, u);
    }
  }

  lemma FailAccountKeeps(w: World, u: UserId, now: Time)
    requires ObjectsOk(w)
    ensures ObjectsOk(StorageNext(w, FailAccount(u, now)))
  {
    if u in w.locks && w.locks[u].AccountHolds? {
      var v := WithRows(w, FenceAccount(w.rows, u, now));
      SameStorageKeeps(w, v);
      ReleaseKeeps(v, u);
    }
  }

  lemma MarkingKeepsObjects(w: World, step: StorageStep)
    requires ObjectsOk(w) && MarksRows(step)
    ensures ObjectsOk(StorageNext(w, step))
  {
    match step {
      case ReserveUpload(u, c, objectId) => ReserveKeeps(w, u, c, objectId);
      case DeleteMaterial(u, m, now) => DeleteKeeps(w, u, m, now);
      case RecoverMaterial(m, now) => RecoverKeeps(w, m, now);
      case MarkCourseDeleting(u, c, now) => MarkCourseKeeps(w, u, c, now);
    }
  }

  lemma LockedKeepsObjects(w: World, step: StorageStep)
    requires ObjectsOk(w) && (step.CommitCourse? || step.CommitAccount? || step.FailAccount? || step.CleanLocked?)
    ensures ObjectsOk(StorageNext(w, step))
  {
    match step {
      case CommitCourse(u) => CommitCourseKeeps(w, u);
      case CommitAccount(u) => CommitAccountKeeps(w, u);
      case FailAccount(u, now) => FailAccountKeeps(w, u, now);
      case CleanLocked(u, m) => CleanLockedKeeps(w, u, m);
    }
  }

  lemma StorageKeepsObjects(w: World, step: StorageStep)
    requires ObjectsOk(w)
    ensures ObjectsOk(Next(w, Storage(step)))
  {
    if MarksRows(step) {
      MarkingKeepsObjects(w, step);
    } else if step.CommitCourse? || step.CommitAccount? || step.FailAccount? || step.CleanLocked? {
      LockedKeepsObjects(w, step);
    } else if step.LockCourse? || step.LockAccount? || step.AbortLocked? {
      LockKeeps(w, step);
    } else {
      match step {
        case FinishCleaning(c, now) => FinishCleaningKeeps(w, c, now);
        case CleanObject(c) => CleanObjectKeeps(w, c);
        case _ => WriteKeeps(w, step);
      }
    }
  }

  lemma ServiceTables(w: World, u: UserId, call: ServiceStep)
    ensures SameTables(w, ServiceNext(w, u, call))
  {
  }

  lemma NextKeepsObjects(w: World, e: Event)
    requires ObjectsOk(w)
    ensures ObjectsOk(Next(w, e))
  {
    match e {
      case Worker(l, step) =>
        if l in w.attempts {
          WorkerSame(w, l, w.attempts[l], step);
          SameStorageKeeps(w, Next(w, e));
        }
      case Service(u, call) =>
        ServiceSame(w, u, call);
        ServiceTables(w, u, call);
        SameStorageKeeps(w, Next(w, e));
      case Uploading(m, step) => UploadKeepsObjects(w, m, step);
      case Storage(step) => StorageKeepsObjects(w, step);
    }
  }

  lemma {:induction false} RunKeepsObjects(w: World, events: seq<Event>)
    requires ObjectsOk(w)
    ensures ObjectsOk(Run(w, events))
    decreases |events|
  {
    if events != [] {
      NextKeepsObjects(w, events[0]);
      RunKeepsObjects(Next(w, events[0]), events[1..]);
    }
  }

  /** In every reachable state an object is named by a material row that is not a tombstone. */
  lemma NoOrphanObject(users: map<UserId, User>, events: seq<Event>, key: ObjectKey)
    requires key in Run(Init(users), events).objects
    ensures Recorded(Run(Init(users), events).rows, key)
  {
    RunKeepsObjects(Init(users), events);
  }
}
