/** The row invariants hold through every transaction of the material endpoints and of recovery. */
module MaterialRows {
  import opened Options
  import opened Tables
  import opened Histories
  import opened Jobs
  import opened Materials
  import opened RowInvariants

  lemma JobsMoveTrans(a: Rows, b: Rows, c: Rows)
    requires Moves(a, b) && Moves(b, c)
    ensures forall j | j in c.jobs ::
              a.nextJob <= j || (j in a.jobs && JobMoves(a.history, c.history, j, a.jobs[j], c.jobs[j]))
  {
    forall j | j in c.jobs && j < a.nextJob
      ensures j in a.jobs && JobMoves(a.history, c.history, j, a.jobs[j], c.jobs[j])
    {
      RetriesGrow(a.history, b.history, j);
      RetriesGrow(b.history, c.history, j);
    }
  }

  lemma QuietTrans(a: Rows, b: Rows, c: Rows, n: LeaseId)
    requires RowsOk(a, n) && Quiet(a, b) && Quiet(b, c)
    ensures Quiet(a, c)
  {
    ExtendsIsTransitive(a.history, b.history, c.history);
    JobsMoveTrans(a, b, c);
  }

  lemma QuietRefl(r: Rows, n: LeaseId)
    requires RowsOk(r, n)
    ensures Quiet(r, r)
  {
    PatchOk(r, r, {}, {}, n);
  }

  lemma PreservesTrans(a: Rows, b: Rows, c: Rows)
    requires Preserves(a, b) && Preserves(b, c)
    ensures Preserves(a, c)
  {
    forall n | RowsOk(a, n) ensures Keeps(a, c, n) {
      QuietTrans(a, b, c, n);
    }
  }

  lemma CreateOk(r: Rows, u: UserId, m: MaterialId, now: Time, n: LeaseId)
    requires RowsOk(r, n)
    ensures Keeps(r, CreateJob(r, u, m, now).GetOr(r), n)
  {
    if CreateJob(r, u, m, now).Some? {
      CreateJobOk(r, u, m, now, n);
    } else {
      QuietRefl(r, n);
    }
  }

  /** Rewriting one material row without touching its lease, its key or READY. */
  lemma PutMaterialOk(r: Rows, m: MaterialId, mat: Material, n: LeaseId)
    requires RowsOk(r, n) && m in r.materials
    requires mat.key == r.materials[m].key && mat.owner == r.materials[m].owner
    requires || mat.lease.None?
             || (mat.lease == r.materials[m].lease && mat.processing == r.materials[m].processing)
    requires mat.processing == Ready ==> r.materials[m].processing == Ready
    ensures Keeps(r, PutMaterial(r, m, mat), n)
  {
    PatchOk(r, PutMaterial(r, m, mat), {}, {m}, n);
  }

  lemma PutThenCreateOk(r: Rows, u: UserId, m: MaterialId, mat: Material, now: Time, n: LeaseId)
    requires RowsOk(r, n) && m in r.materials
    requires mat.key == r.materials[m].key && mat.owner == r.materials[m].owner
    requires || mat.lease.None?
             || (mat.lease == r.materials[m].lease && mat.processing == r.materials[m].processing)
    requires mat.processing == Ready ==> r.materials[m].processing == Ready
    requires CreateJob(PutMaterial(r, m, mat), u, m, now).Some?
    ensures Keeps(r, CreateJob(PutMaterial(r, m, mat), u, m, now).value, n)
  {
    PutMaterialOk(r, m, mat, n);
    CreateJobOk(PutMaterial(r, m, mat), u, m, now, n);
    QuietTrans(r, PutMaterial(r, m, mat), CreateJob(PutMaterial(r, m, mat), u, m, now).value, n);
  }

  lemma ReserveOk(r: Rows, u: UserId, c: CourseId, objectId: nat, n: LeaseId)
    requires RowsOk(r, n) && Reserve(r, u, c, objectId).Some?
    ensures Keeps(r, Reserve(r, u, c, objectId).value, n)
  {
  }

  lemma RemoveMaterialsOk(r: Rows, ms: set<MaterialId>, n: LeaseId)
    requires RowsOk(r, n)
    ensures Keeps(r, RemoveMaterials(r, ms), n)
  {
  }

  /** Users are no part of the row invariants. */
  lemma UsersOk(r: Rows, users: map<UserId, User>, n: LeaseId)
    requires RowsOk(r, n)
    ensures Keeps(r, r.(users := users), n)
  {
    PatchOk(r, r.(users := users), {}, {}, n);
  }

  lemma BeginDeleteOk(r: Rows, u: UserId, m: MaterialId, now: Time, n: LeaseId)
    requires RowsOk(r, n) && BeginDelete(r, u, m, now).Some?
    ensures Keeps(r, BeginDelete(r, u, m, now).value, n)
  {
    var s := CancelJobsForMaterial(r, u, m, now);
    CancelJobsForMaterialOk(r, u, m, now, n);
    PutMaterialOk(s, m, BeginDelete(r, u, m, now).value.materials[m], n);
    QuietTrans(r, s, BeginDelete(r, u, m, now).value, n);
  }

  lemma RequeuedOk(r: Rows, u: UserId, m: MaterialId, l: LeaseId, now: Time, n: LeaseId)
    requires RowsOk(r, n) && BeginReprocess(r, u, m, l, now).Requeued?
    ensures Keeps(r, BeginReprocess(r, u, m, l, now).rows, n)
  {
    var s := CancelJobsForMaterial(r, u, m, now);
    CancelJobsForMaterialOk(r, u, m, now, n);
    PutThenCreateOk(s, u, m, Settled(s.materials[m], Pending, NoMessage), now, n);
    QuietTrans(r, s, BeginReprocess(r, u, m, l, now).rows, n);
  }

  lemma FinishReprocessOk(r: Rows, u: UserId, m: MaterialId, l: LeaseId, ids: set<ChunkId>, now: Time, n: LeaseId)
    requires RowsOk(r, n)
    ensures FinishReprocess(r, u, m, l, ids, now).Some? ==>
      Keeps(r, FinishReprocess(r, u, m, l, ids, now).value, n)
  {
    if FinishReprocess(r, u, m, l, ids, now).Some? {
      PutThenCreateOk(r, u, m, Settled(r.materials[m], Pending, NoMessage).(chunks := {}), now, n);
    }
  }

  lemma RecoverStorageOk(r: Rows, m: MaterialId, now: Time, n: LeaseId)
    requires RowsOk(r, n)
    ensures Keeps(r, RecoverStorage(r, m, now), n)
  {
    QuietRefl(r, n);
    if NeedsRecovery(r, m, now) {
      PutMaterialOk(r, m, RecoverStorage(r, m, now).materials[m], n);
    }
  }

  lemma FinishRecoveryOk(r: Rows, m: MaterialId, now: Time, n: LeaseId)
    requires RowsOk(r, n)
    ensures Keeps(r, FinishRecovery(r, m, now), n)
  {
    QuietRefl(r, n);
    if NeedsRecovery(r, m, now) {
      var s := FinishRecovery(r, m, now);
      PutMaterialOk(r, m, s.materials[m], n);
      assert s == PutMaterial(r, m, s.materials[m]);
    }
  }

  lemma MarkCourseOk(r: Rows, u: UserId, c: CourseId, now: Time, n: LeaseId)
    requires RowsOk(r, n) && MarkCourse(r, u, c, now).Some?
    ensures Keeps(r, MarkCourse(r, u, c, now).value, n)
  {
    PatchOk(r, MarkCourse(r, u, c, now).value, {}, r.materials.Keys, n);
  }

  lemma FencedMaterial(r: Rows, u: UserId, now: Time, m: MaterialId, n: LeaseId)
    requires RowsOk(r, n) && m in r.materials
    ensures var s := FenceAccount(r, u, now);
            && MaterialMoves(s.history, m, r.materials[m], s.materials[m])
            && (r.materials[m].owner == u ==> s.materials[m].lease.None?)
  {
    SameMaterial(r.history, FenceAccount(r, u, now).history, ActiveJobs(r, u, None), m, r.materials[m]);
  }

  lemma FencedJob(r: Rows, u: UserId, now: Time, j: JobId, n: LeaseId)
    requires RowsOk(r, n) && j in ActiveJobs(r, u, None)
    ensures var s := FenceAccount(r, u, now);
            && JobOk(s.history, j, s.jobs[j])
            && JobMoves(r.history, s.history, j, r.jobs[j], s.jobs[j])
            && s.materials[s.jobs[j].material].lease.None?
  {
    assert OwnsMaterial(r, r.jobs[j].owner, r.jobs[j].material);
    CancelledRowOk(r.history, ActiveJobs(r, u, None), j, r.jobs[j], now);
    FencedMaterial(r, u, now, r.jobs[j].material, n);
  }

  /** What fencing leaves alone: every row that is neither an active job nor a material of the user. */
  lemma FenceFrame(r: Rows, u: UserId, now: Time, n: LeaseId)
    requires RowsOk(r, n)
    ensures var s, js := FenceAccount(r, u, now), ActiveJobs(r, u, None);
            && s.nextMaterial == r.nextMaterial && s.nextJob == r.nextJob
            && s.materials.Keys == r.materials.Keys && s.jobs.Keys == r.jobs.Keys
            && OnlyAbout(r.history, s.history, js) && Sound(s.history) && Below(s.history, s.nextJob, n)
            && (forall j | j in r.jobs :: j in js || s.jobs[j] == r.jobs[j])
  {
  }

  lemma FenceAccountOk(r: Rows, u: UserId, now: Time, n: LeaseId)
    requires RowsOk(r, n)
    ensures Keeps(r, FenceAccount(r, u, now), n)
  {
    var s := FenceAccount(r, u, now);
    FenceFrame(r, u, now, n);
    forall m | m in r.materials ensures MaterialMoves(s.history, m, r.materials[m], s.materials[m]) {
      FencedMaterial(r, u, now, m, n);
    }
    forall j | j in ActiveJobs(r, u, None)
      ensures && JobOk(s.history, j, s.jobs[j])
              && JobMoves(r.history, s.history, j, r.jobs[j], s.jobs[j])
              && s.materials[s.jobs[j].material].lease.None?
    {
      FencedJob(r, u, now, j, n);
    }
    PatchOk(r, s, ActiveJobs(r, u, None), r.materials.Keys, n);
  }

  lemma RemoveAccountOk(r: Rows, u: UserId, n: LeaseId)
    requires RowsOk(r, n)
    ensures Keeps(r, RemoveAccount(r, u), n)
  {
    var s := RemoveMaterials(r, UserMaterials(r, u));
    RemoveMaterialsOk(r, UserMaterials(r, u), n);
    UsersOk(s, r.users - {u}, n);
    QuietTrans(r, s, RemoveAccount(r, u), n);
  }

  lemma FinishDeleteOk(r: Rows, u: UserId, m: MaterialId, n: LeaseId)
    requires RowsOk(r, n)
    ensures Keeps(r, FinishDelete(r, u, m), n)
  {
    QuietRefl(r, n);
    if m in r.materials {
      PutMaterialOk(r, m, Tombstone(r, m).materials[m], n);
    }
  }

  lemma CommitUploadOk(r: Rows, u: UserId, c: CourseId, m: MaterialId, size: nat, hash: Hash, n: LeaseId)
    requires RowsOk(r, n)
    ensures Keeps(r, CommitUpload(r, u, c, m, size, hash).GetOr(r), n)
  {
    QuietRefl(r, n);
    if m in r.materials {
      PutMaterialOk(r, m, r.materials[m].(size := size, hash := Some(hash)), n);
    }
  }

  lemma PublishOk(r: Rows, u: UserId, m: MaterialId, now: Time, n: LeaseId)
    requires RowsOk(r, n)
    ensures Keeps(r, Publish(r, u, m, now).GetOr(r), n)
  {
    QuietRefl(r, n);
    if Publish(r, u, m, now).Some? {
      PutThenCreateOk(r, u, m, r.materials[m].(storage := Available, uncertain := false), now, n);
    }
  }

  lemma DiscardsOk(r: Rows, m: MaterialId, uncertain: bool, n: LeaseId)
    requires RowsOk(r, n)
    ensures Keeps(r, KeepReservation(r, m, uncertain), n)
    ensures Keeps(r, DiscardReservation(r, m), n)
    ensures m in r.materials ==> Keeps(r, MarkDeleting(r, m, uncertain), n)
  {
    QuietRefl(r, n);
    RemoveMaterialsOk(r, {m}, n);
    if m in r.materials {
      PutMaterialOk(r, m, MarkDeleting(r, m, uncertain).materials[m], n);
    }
  }

  lemma CompensateOk(r: Rows, u: UserId, m: MaterialId, n: LeaseId)
    requires RowsOk(r, n)
    ensures Keeps(r, Compensate(r, u, m).GetOr(r), n)
  {
    QuietRefl(r, n);
    DiscardsOk(r, m, false, n);
  }

  // ---------------------------------------------------------------- chunk rows and leases

  lemma DropChunksOk(r: Rows, m: MaterialId, ids: set<ChunkId>, n: LeaseId)
    requires RowsOk(r, n)
    ensures Keeps(r, DropChunks(r, m, ids), n)
  {
    QuietRefl(r, n);
    if m in r.materials {
      PutMaterialOk(r, m, r.materials[m].(chunks := r.materials[m].chunks - ids), n);
    }
  }

  lemma PersistIntentOk(r: Rows, n: LeaseId, m: MaterialId, ids: set<ChunkId>)
    requires RowsOk(r, n)
    ensures Keeps(r, PersistIntent(r, m, ids), n)
  {
    QuietRefl(r, n);
    if m in r.materials {
      PutMaterialOk(r, m, r.materials[m].(chunks := r.materials[m].chunks + ids), n);
    }
  }

  lemma DropIntentOk(r: Rows, n: LeaseId, m: MaterialId, ids: set<ChunkId>)
    requires RowsOk(r, n)
    ensures Keeps(r, DropIntent(r, m, ids), n)
  {
    QuietRefl(r, n);
    if m in r.materials {
      PutMaterialOk(r, m, r.materials[m].(chunks := r.materials[m].chunks - ids, message := FailedMessage), n);
    }
  }

  lemma FailProcessingOk(r: Rows, n: LeaseId, m: MaterialId)
    requires RowsOk(r, n)
    ensures Keeps(r, FailProcessing(r, m), n)
  {
    QuietRefl(r, n);
    if m in r.materials {
      PutMaterialOk(r, m, Settled(r.materials[m], ProcessingFailed, FailedMessage), n);
    }
  }

  lemma FailIntentOk(r: Rows, n: LeaseId, m: MaterialId, l: LeaseId)
    requires RowsOk(r, n)
    ensures Keeps(r, FailIntent(r, m, l), n)
  {
    QuietRefl(r, n);
    if m in r.materials {
      PutMaterialOk(r, m, Settled(r.materials[m], ProcessingFailed, IndexCleanupPending), n);
    }
  }

  lemma {:induction h} ReadiedWasWritten(h: History, l: LeaseId)
    requires Sound(h) && WasReadied(h, l)
    ensures WasWritten(h, l)
  {
    if h.latest.Readied? && h.latest.lease == l {
      LastWroteWasWritten(h.past, h.latest.material);
    }
  }

  /** Handing a lease to a material row: the note is allowed because the lease is new. */
  lemma LeaseRowsOk(r: Rows, m: MaterialId, l: LeaseId, mat: Material, n: LeaseId)
    requires RowsOk(r, n) && m in r.materials && l < n && !WasWritten(r.history, l)
    requires mat.key == r.materials[m].key && mat.owner == r.materials[m].owner
    requires mat.processing == Processing && mat.lease == Some(l)
    ensures RowsOk(Log(PutMaterial(r, m, mat), Wrote(m, l)), n)
    ensures Extends(r.history, Then(r.history, Wrote(m, l)))
  {
    var s := Log(PutMaterial(r, m, mat), Wrote(m, l));
    if WasReadied(r.history, l) {
      ReadiedWasWritten(r.history, l);
    }
    forall j | j in s.jobs ensures JobOk(s.history, j, s.jobs[j]) {
      assert JobOk(r.history, j, r.jobs[j]);
    }
    forall k | k in s.materials ensures MaterialOk(s.history, k, s.materials[k]) {
      assert MaterialOk(r.history, k, r.materials[k]);
    }
  }

  lemma MarkReadyRowsOk(r: Rows, m: MaterialId, l: LeaseId, j: JobId, n: LeaseId)
    requires RowsOk(r, n) && HoldsLease(r, m, l) && j < r.nextJob && l < n && !WasCancelled(r.history, j)
    requires forall k | k in r.materials && k != m :: r.materials[k].lease != Some(l)
    ensures RowsOk(MarkReady(r, m, l, j), n)
  {
    var s := MarkReady(r, m, l, j);
    forall i | i in s.jobs ensures JobOk(s.history, i, s.jobs[i]) {
      assert JobOk(r.history, i, r.jobs[i]);
    }
    forall k | k in s.materials ensures MaterialOk(s.history, k, s.materials[k]) {
      assert MaterialOk(r.history, k, r.materials[k]);
    }
  }

  /** The report and the lease write that share a transaction. */
  lemma TakeLeaseOk(r: Rows, u: UserId, j: JobId, number: nat, m: MaterialId, l: LeaseId, now: Time, n: LeaseId)
    requires RowsOk(r, n) && l < n && !WasWritten(r.history, l)
    ensures RowsOk(TakeLease(r, u, j, number, m, l, now), n)
  {
    if IsCurrentAttempt(r, u, j, Some(number)) && m in r.materials {
      UpdateProgressOk(r, u, j, 25, Some(number), now, n);
      LeaseRowsOk(UpdateProgress(r, u, j, 25, Some(number), now), m, l,
                  Leased(r.materials[m], l, now + LEASE_DURATION), n);
    }
  }

  /** What clearing a ready material for reprocessing adds to cancelling its jobs. */
  lemma ClearingIs(r: Rows, u: UserId, m: MaterialId, l: LeaseId, now: Time)
    requires BeginReprocess(r, u, m, l, now).Clearing?
    ensures var c, s := CancelJobsForMaterial(r, u, m, now), BeginReprocess(r, u, m, l, now).rows;
            && m in c.materials && m in s.materials && s == Log(PutMaterial(c, m, s.materials[m]), Wrote(m, l))
            && s.materials[m].key == c.materials[m].key && s.materials[m].owner == c.materials[m].owner
            && s.materials[m].processing == Processing && s.materials[m].lease == Some(l)
  {
  }

  lemma BeginReprocessOk(r: Rows, u: UserId, m: MaterialId, l: LeaseId, now: Time, n: LeaseId)
    requires RowsOk(r, n) && l < n && !WasWritten(r.history, l) && !BeginReprocess(r, u, m, l, now).Refused?
    ensures RowsOk(BeginReprocess(r, u, m, l, now).rows, n)
  {
    var o := BeginReprocess(r, u, m, l, now);
    if o.Requeued? {
      RequeuedOk(r, u, m, l, now, n);
    } else {
      ClearingIs(r, u, m, l, now);
      CancelJobsForMaterialOk(r, u, m, now, n);
      LeaseRowsOk(CancelJobsForMaterial(r, u, m, now), m, l, o.rows.materials[m], n);
    }
  }
}
