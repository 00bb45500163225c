/**
 The two-phase quota: a slot is reserved before staging and the bytes before the object is
 written, and no interleaving of uploads, failures, deletions and recoveries gets past a
 limit or stores the same content twice in a course. Limits are fixed during a run.
 */
module Quotas {
  import opened Options
  import opened Tables
  import opened Jobs
  import opened Materials
  import opened Lifecycle
  import opened Leases
  import opened Objects

  // ---------------------------------------------------------------- what is counted

  /** The user's rows below `n` that are no tombstones. */
  function CountedRows(r: Rows, u: UserId, n: MaterialId): set<MaterialId> {
    set m | m in r.materials && m < n && r.materials[m].owner == u && r.materials[m].storage != Deleted
  }

  /** The sizes of some rows, added up in any order. */
  ghost function SizeSum(r: Rows, ms: set<MaterialId>): nat
    requires ms <= r.materials.Keys
  {
    if ms == {} then 0 else var m :| m in ms; r.materials[m].size + SizeSum(r, ms - {m})
  }

  lemma {:induction false} SizeSumTakesOut(r: Rows, ms: set<MaterialId>, m: MaterialId)
    requires ms <= r.materials.Keys && m in ms
    ensures SizeSum(r, ms) == r.materials[m].size + SizeSum(r, ms - {m})
  {
    var k :| k in ms && SizeSum(r, ms) == r.materials[k].size + SizeSum(r, ms - {k});
    if k != m {
      SizeSumTakesOut(r, ms - {k}, m);
      SizeSumTakesOut(r, ms - {m}, k);
      assert ms - {k} - {m} == ms - {m} - {k};
    }
  }

  lemma SizeSumAdds(r: Rows, ms: set<MaterialId>, m: MaterialId)
    requires ms <= r.materials.Keys && m in r.materials && m !in ms
    ensures SizeSum(r, ms + {m}) == r.materials[m].size + SizeSum(r, ms)
  {
    SizeSumTakesOut(r, ms + {m}, m);
    assert ms + {m} - {m} == ms;
  }

  lemma NextCountedRows(r: Rows, u: UserId, n: MaterialId)
    ensures n !in CountedRows(r, u, n)
    ensures CountedRows(r, u, n + 1) == CountedRows(r, u, n) + if Counts(r, u, n) then {n} else {}
  {
  }

  lemma OneMoreRow(r: Rows, u: UserId, n: MaterialId)
    ensures var before, after := CountedRows(r, u, n), CountedRows(r, u, n + 1);
            && |after| == |before| + (if Counts(r, u, n) then 1 else 0)
            && SizeSum(r, after) == SizeSum(r, before) + (if Counts(r, u, n) then r.materials[n].size else 0)
  {
    NextCountedRows(r, u, n);
    if Counts(r, u, n) {
      SizeSumAdds(r, CountedRows(r, u, n), n);
    } else {
      assert CountedRows(r, u, n + 1) == CountedRows(r, u, n);
    }
  }

  lemma NoRowsBelowZero(r: Rows, u: UserId)
    ensures CountedRows(r, u, 0) == {} && SizeSum(r, CountedRows(r, u, 0)) == 0
  {
    assert CountedRows(r, u, 0) == {};
  }

  /** The counting loops see each counted row once. */
  lemma {:induction false} UsageIsSum(r: Rows, u: UserId, n: MaterialId)
    ensures FilesUsed(r, u, n) == |CountedRows(r, u, n)|
    ensures StorageUsed(r, u, n) == SizeSum(r, CountedRows(r, u, n))
  {
    if n == 0 {
      NoRowsBelowZero(r, u);
    } else {
      UsageIsSum(r, u, n - 1);
      OneMoreRow(r, u, n - 1);
    }
  }

  /** Rewriting one row below `n` changes the usage by what it counts after less what it counted before. */
  lemma {:induction n} UsageChanges(r: Rows, m: MaterialId, mat: Material, u: UserId, n: MaterialId)
    requires m < n
    ensures var s := PutMaterial(r, m, mat);
            && FilesUsed(s, u, n) + (if Counts(r, u, m) then 1 else 0)
               == FilesUsed(r, u, n) + (if mat.owner == u && mat.storage != Deleted then 1 else 0)
            && StorageUsed(s, u, n) + (if Counts(r, u, m) then r.materials[m].size else 0)
               == StorageUsed(r, u, n) + (if mat.owner == u && mat.storage != Deleted then mat.size else 0)
  {
    if m == n - 1 {
      NewRowAbove(r, m, mat, u, m);
    }
  }

  // ---------------------------------------------------------------- the limits

  ghost predicate WithinLimits(r: Rows) {
    forall u | u in r.users ::
      && FilesUsed(r, u, r.nextMaterial) <= r.users[u].fileLimit
      && StorageUsed(r, u, r.nextMaterial) <= r.users[u].storageLimit
  }

  /** Two different reserved or available materials of one course and owner never share a content hash. */
  ghost predicate NoDuplicates(r: Rows) {
    forall m, k | m in r.materials && k in r.materials && m != k && r.materials[m].hash.Some?
                  && r.materials[m].storage in {Reserved, Available}
                  && r.materials[k].storage in {Reserved, Available} ::
      !(r.materials[k].owner == r.materials[m].owner && r.materials[k].course == r.materials[m].course
        && r.materials[k].hash == r.materials[m].hash)
  }

  ghost predicate QuotaOk(r: Rows) {
    WithinLimits(r) && NoDuplicates(r)
  }

  lemma {:induction n} UsageShrinks(r: Rows, s: Rows, u: UserId, n: MaterialId)
    requires StorageMoves(r, s)
    ensures FilesUsed(s, u, n) <= FilesUsed(r, u, n)
    ensures StorageUsed(s, u, n) <= StorageUsed(r, u, n)
  {
  }

  lemma MovesKeepQuota(r: Rows, s: Rows)
    requires QuotaOk(r) && StorageMoves(r, s)
    ensures QuotaOk(s)
  {
    forall u | u in s.users
      ensures && FilesUsed(s, u, s.nextMaterial) <= s.users[u].fileLimit
              && StorageUsed(s, u, s.nextMaterial) <= s.users[u].storageLimit
    {
      UsageShrinks(r, s, u, s.nextMaterial);
    }
  }

  /** A row at or above `n` does not count below it. */
  lemma {:induction n} NewRowAbove(r: Rows, m: MaterialId, mat: Material, u: UserId, n: MaterialId)
    requires n <= m
    ensures FilesUsed(PutMaterial(r, m, mat), u, n) == FilesUsed(r, u, n)
    ensures StorageUsed(PutMaterial(r, m, mat), u, n) == StorageUsed(r, u, n)
  {
  }

  lemma {:induction n} SameUsage(r: Rows, s: Rows, u: UserId, n: MaterialId)
    requires r.materials == s.materials
    ensures FilesUsed(s, u, n) == FilesUsed(r, u, n) && StorageUsed(s, u, n) == StorageUsed(r, u, n)
  {
  }

  lemma ReserveKeepsQuota(r: Rows, u: UserId, c: CourseId, objectId: nat)
    requires QuotaOk(r) && Reserve(r, u, c, objectId).Some?
    ensures QuotaOk(Reserve(r, u, c, objectId).value)
  {
    var s, m := Reserve(r, u, c, objectId).value, r.nextMaterial;
    var p := PutMaterial(r, m, s.materials[m]);
    forall v | v in s.users
      ensures && FilesUsed(s, v, s.nextMaterial) <= s.users[v].fileLimit
              && StorageUsed(s, v, s.nextMaterial) <= s.users[v].storageLimit
    {
      NewRowAbove(r, m, s.materials[m], v, m);
      SameUsage(p, s, v, m);
    }
  }

  /** Writing the size of one row adds at most that size to its owner's total. */
  lemma {:induction n} SizeAdds(r: Rows, m: MaterialId, size: nat, hash: Option<Hash>, u: UserId, n: MaterialId)
    requires m in r.materials
    ensures var s := PutMaterial(r, m, r.materials[m].(size := size, hash := hash));
            && FilesUsed(s, u, n) == FilesUsed(r, u, n)
            && StorageUsed(s, u, n) <= StorageUsed(r, u, n) + (if r.materials[m].owner == u && m < n then size else 0)
  {
  }

  lemma CommitKeepsQuota(r: Rows, u: UserId, c: CourseId, m: MaterialId, size: nat, hash: Hash)
    requires QuotaOk(r) && CommitUpload(r, u, c, m, size, hash).Some?
    requires r.materials[m].course == c
    ensures QuotaOk(CommitUpload(r, u, c, m, size, hash).value)
  {
    var s := CommitUpload(r, u, c, m, size, hash).value;
    forall v | v in s.users
      ensures && FilesUsed(s, v, s.nextMaterial) <= s.users[v].fileLimit
              && StorageUsed(s, v, s.nextMaterial) <= s.users[v].storageLimit
    {
      SizeAdds(r, m, size, Some(hash), v, r.nextMaterial);
    }
    forall k | k in r.materials && k != m ensures !SameContent(r.materials[k], u, c, hash) {
    }
  }

  // ---------------------------------------------------------------- every step moves storage forward

  predicate AddsUsage(e: Event) {
    || (e.Uploading? && e.upload.CommitMetadata?)
    || (e.Storage? && e.storage.ReserveUpload?)
  }

  lemma DiscardsMove(r: Rows, u: UserId, m: MaterialId)
    ensures StorageMoves(r, KeepReservation(r, m, true)) && StorageMoves(r, KeepReservation(r, m, false))
    ensures StorageMoves(r, DiscardReservation(r, m))
    ensures Compensate(r, u, m).Some? ==> StorageMoves(r, Compensate(r, u, m).value)
  {
  }

  lemma UploadMoves(w: World, m: MaterialId, step: UploadStep)
    requires ObjectsOk(w) && m in w.uploads && !step.CommitMetadata?
    ensures StorageMoves(w.rows, UploadNext(w, m, step).rows)
  {
    var r, up := w.rows, w.uploads[m];
    assert UploadOk(w, m, up);
    if step.PublishMaterial? {
      if up.pc == Stored && Publish(r, up.owner, m, step.at).Some? {
        PublishMoves(r, up.owner, m, step.at);
      }
    } else {
      UploadEffectIsIt(w, m, step);
      DiscardsMove(r, up.owner, m);
    }
  }

  lemma FenceMoves(r: Rows, u: UserId, now: Time)
    ensures StorageMoves(r, FenceAccount(r, u, now))
  {
  }

  lemma RemovalMoves(r: Rows, u: UserId, ms: set<MaterialId>)
    ensures StorageMoves(r, RemoveMaterials(r, ms))
    ensures StorageMoves(r, RemoveAccount(r, u))
  {
  }

  lemma LockedMoves(w: World, step: StorageStep)
    requires step.CommitCourse? || step.CommitAccount? || step.FailAccount?
    ensures StorageMoves(w.rows, StorageNext(w, step).rows)
  {
    var r, u := w.rows, step.user;
    if u in w.locks {
      if step.CommitCourse? && w.locks[u].CourseHolds? {
        RemovalMoves(r, u, CourseMaterials(r, u, w.locks[u].course));
      } else if step.CommitAccount? {
        RemovalMoves(r, u, {});
      } else if step.FailAccount? {
        FenceMoves(r, u, step.at);
      }
    }
  }

  lemma MarkingMoves(w: World, step: StorageStep)
    requires step.DeleteMaterial? || step.RecoverMaterial? || step.FinishCleaning? || step.MarkCourseDeleting?
    ensures StorageMoves(w.rows, StorageNext(w, step).rows)
  {
    match step {
      case DeleteMaterial(u, m, now) =>
        if BeginDelete(w.rows, u, m, now).Some? {
          BeginDeleteMoves(w.rows, u, m, now);
        }
      case RecoverMaterial(m, now) =>
        if m in w.rows.materials {
          RecoverMoves(w.rows, m, now);
        }
      case FinishCleaning(c, now) =>
        if c in w.cleaners {
          CleaningMoves(w, c, now);
        }
      case MarkCourseDeleting(u, c, now) =>
        if MarkCourse(w.rows, u, c, now).Some? {
          MarkCourseMoves(w.rows, u, c, now);
        }
    }
  }

  lemma StorageStepMoves(w: World, step: StorageStep)
    requires !step.ReserveUpload?
    ensures StorageMoves(w.rows, StorageNext(w, step).rows)
  {
    if step.CommitCourse? || step.CommitAccount? || step.FailAccount? {
      LockedMoves(w, step);
    } else if step.DeleteMaterial? || step.RecoverMaterial? || step.FinishCleaning? || step.MarkCourseDeleting? {
      MarkingMoves(w, step);
    }
  }

  lemma NextMoves(w: World, e: Event)
    requires ObjectsOk(w) && !AddsUsage(e)
    ensures StorageMoves(w.rows, Next(w, e).rows)
  {
    match e {
      case Worker(l, step) =>
        if l in w.attempts {
          WorkerSame(w, l, w.attempts[l], step);
        }
      case Service(u, call) => ServiceSame(w, u, call);
      case Uploading(m, step) =>
        if m in w.uploads {
          UploadMoves(w, m, step);
        }
      case Storage(step) => StorageStepMoves(w, step);
    }
  }

  /** Reserving a slot and committing its metadata change no storage status. */
  lemma ReserveKeepsRows(w: World, u: UserId, c: CourseId, objectId: nat)
    requires KeysOk(w.rows)
    ensures var s := StorageNext(w, ReserveUpload(u, c, objectId)).rows;
            && w.rows.nextMaterial <= s.nextMaterial
            && forall m | m < w.rows.nextMaterial :: m in s.materials <==> m in w.rows.materials
    ensures var s := StorageNext(w, ReserveUpload(u, c, objectId)).rows;
            forall m | m in w.rows.materials :: s.materials[m] == w.rows.materials[m]
  {
  }

  lemma CommitKeepsRows(w: World, m: MaterialId, step: UploadStep)
    requires m in w.uploads && step.CommitMetadata?
    ensures var s := UploadNext(w, m, step).rows;
            && s.nextMaterial == w.rows.nextMaterial && s.materials.Keys == w.rows.materials.Keys
            && forall k | k in s.materials ::
                 s.materials[k].storage == w.rows.materials[k].storage && s.materials[k].key == w.rows.materials[k].key
  {
  }

  lemma UsageKeepsRows(w: World, e: Event, m: MaterialId)
    requires ObjectsOk(w) && AddsUsage(e) && m < w.rows.nextMaterial
    ensures m in Next(w, e).rows.materials <==> m in w.rows.materials
    ensures m in w.rows.materials ==>
              && Next(w, e).rows.materials[m].storage == w.rows.materials[m].storage
              && Next(w, e).rows.materials[m].key == w.rows.materials[m].key
    ensures w.rows.nextMaterial <= Next(w, e).rows.nextMaterial
  {
    if e.Storage? {
      ReserveKeepsRows(w, e.storage.user, e.storage.course, e.storage.objectId);
    } else if e.material in w.uploads {
      CommitKeepsRows(w, e.material, e.upload);
    }
  }

  /** The storage status of a material never goes back. */
  lemma StorageOnlyMovesForward(w: World, e: Event, m: MaterialId)
    requires ObjectsOk(w) && m in w.rows.materials && m in Next(w, e).rows.materials
    ensures Rank(w.rows.materials[m].storage) <= Rank(Next(w, e).rows.materials[m].storage)
  {
    if AddsUsage(e) {
      UsageKeepsRows(w, e, m);
    } else {
      NextMoves(w, e);
    }
  }

  // ---------------------------------------------------------------- runs

  ghost predicate StoreOk(w: World) {
    ObjectsOk(w) && QuotaOk(w.rows)
  }

  lemma CommitMetadataKeepsQuota(w: World, m: MaterialId, step: UploadStep)
    requires StoreOk(w) && m in w.uploads && step.CommitMetadata?
    ensures QuotaOk(UploadNext(w, m, step).rows)
  {
    var up := w.uploads[m];
    assert UploadOk(w, m, up);
    if CommitUpload(w.rows, up.owner, up.course, m, step.size, step.hash).Some? {
      CommitKeepsQuota(w.rows, up.owner, up.course, m, step.size, step.hash);
    }
  }

  lemma NextKeepsStore(w: World, e: Event)
    requires StoreOk(w)
    ensures StoreOk(Next(w, e))
  {
    NextKeepsObjects(w, e);
    if !AddsUsage(e) {
      NextMoves(w, e);
      MovesKeepQuota(w.rows, Next(w, e).rows);
    } else if e.Uploading? {
      if e.material in w.uploads {
        CommitMetadataKeepsQuota(w, e.material, e.upload);
      }
    } else if Reserve(w.rows, e.storage.user, e.storage.course, e.storage.objectId).Some? {
      ReserveKeepsQuota(w.rows, e.storage.user, e.storage.course, e.storage.objectId);
    }
  }

  lemma {:induction false} RunKeepsStore(w: World, events: seq<Event>)
    requires StoreOk(w)
    ensures StoreOk(Run(w, events))
    decreases |events|
  {
    if events != [] {
      NextKeepsStore(w, events[0]);
      RunKeepsStore(Next(w, events[0]), events[1..]);
    }
  }

  /**
   In every reachable state the rows each user has that are no tombstones, and the sizes of
   those rows added up, are within the user's limits, and no content is stored twice in a course.
   */
  lemma QuotaHolds(users: map<UserId, User>, events: seq<Event>)
    ensures var r := Run(Init(users), events).rows;
            && QuotaOk(r)
            && forall u | u in r.users ::
                 && |CountedRows(r, u, r.nextMaterial)| <= r.users[u].fileLimit
                 && SizeSum(r, CountedRows(r, u, r.nextMaterial)) <= r.users[u].storageLimit
                 && CountedRows(r, u, r.nextMaterial)
                    == set m | m in r.materials && r.materials[m].owner == u && r.materials[m].storage != Deleted
  {
    RunKeepsStore(Init(users), events);
    var r := Run(Init(users), events).rows;
    forall u | u in r.users
      ensures && FilesUsed(r, u, r.nextMaterial) == |CountedRows(r, u, r.nextMaterial)|
              && StorageUsed(r, u, r.nextMaterial) == SizeSum(r, CountedRows(r, u, r.nextMaterial))
    {
      UsageIsSum(r, u, r.nextMaterial);
    }
  }

  /** No row below the next id appears, and the ids only grow. */
  lemma NoRowComesBack(w: World, e: Event, m: MaterialId)
    requires ObjectsOk(w) && m < w.rows.nextMaterial
    ensures m in Next(w, e).rows.materials ==>
              && m in w.rows.materials && Next(w, e).rows.materials[m].key == w.rows.materials[m].key
              && Rank(w.rows.materials[m].storage) <= Rank(Next(w, e).rows.materials[m].storage)
    ensures w.rows.nextMaterial <= Next(w, e).rows.nextMaterial
  {
    if AddsUsage(e) {
      UsageKeepsRows(w, e, m);
    } else {
      NextMoves(w, e);
    }
  }

  /** Over a whole run: a row that is still there has its key and only moved forward, and none comes back. */
  lemma {:induction false} StorageForwardOverRuns(w: World, events: seq<Event>, m: MaterialId)
    requires ObjectsOk(w) && m < w.rows.nextMaterial
    ensures m in Run(w, events).rows.materials ==>
              && m in w.rows.materials && Run(w, events).rows.materials[m].key == w.rows.materials[m].key
              && Rank(w.rows.materials[m].storage) <= Rank(Run(w, events).rows.materials[m].storage)
    decreases |events|
  {
    if events != [] {
      NextKeepsObjects(w, events[0]);
      NoRowComesBack(w, events[0], m);
      StorageForwardOverRuns(Next(w, events[0]), events[1..], m);
    }
  }
}
