/**
 An AVAILABLE material has its object, with one exception: a course or account deletion
 removes objects under the user lock before its transaction commits, and keeps the row
 AVAILABLE when that transaction fails.
 */
module Availability {
  import opened Options
  import opened Tables
  import opened Materials
  import opened Lifecycle
  import opened Leases
  import opened Objects
  import opened Quotas

  predicate IsAvailable(w: World, m: MaterialId) {
    m in w.rows.materials && w.rows.materials[m].storage == Available
  }

  predicate HasObject(w: World, m: MaterialId)
    requires m in w.rows.materials
  {
    w.rows.materials[m].key in w.objects
  }

  /** A verified upload has its object, and nothing is in flight under the key of an available row. */
  ghost predicate Verified(w: World) {
    && (forall m | m in w.uploads && w.uploads[m].pc == Stored :: w.uploads[m].key in w.objects)
    && (forall m | IsAvailable(w, m) :: WriteSettled(w, w.rows.materials[m].key))
  }

  /** A deletion that holds the user lock removes the object of this available row. */
  predicate Strips(w: World, e: Event, m: MaterialId) {
    && e.Storage? && e.storage.CleanLocked? && e.storage.material == m
    && IsAvailable(w, m)
    && m in LockedMaterials(w, e.storage.user)
    && WriteSettled(w, w.rows.materials[m].key)
    && !(w.locks[e.storage.user].AccountHolds? && BlocksAccount(w.rows.materials[m]))
  }

  /** At some point of the run. */
  predicate Stripped(w: World, events: seq<Event>, m: MaterialId)
    decreases |events|
  {
    events != [] && (Strips(w, events[0], m) || Stripped(Next(w, events[0]), events[1..], m))
  }

  /** Nothing becomes available. */
  predicate NoneAppears(r: Rows, s: Rows) {
    forall m | m in s.materials && s.materials[m].storage == Available ::
      m in r.materials && r.materials[m].storage == Available && s.materials[m].key == r.materials[m].key
  }

  /** An available row loses its object only when it is stripped, and a published one has it. */
  ghost predicate Serves(w: World, v: World, e: Event) {
    forall m | IsAvailable(v, m) ::
      if IsAvailable(w, m) then
        && v.rows.materials[m].key == w.rows.materials[m].key
        && (HasObject(v, m) <==> HasObject(w, m) && !Strips(w, e, m))
      else HasObject(v, m)
  }

  // ---------------------------------------------------------------- one step

  /** No upload is verified by the step. */
  predicate NoneVerified(w: World, v: World) {
    forall m | m in v.uploads && v.uploads[m].pc == Stored :: m in w.uploads && v.uploads[m] == w.uploads[m]
  }

  /** Steps that leave the object store alone and publish nothing. */
  lemma QuietServes(w: World, v: World, e: Event)
    requires Verified(w) && NoneAppears(w.rows, v.rows) && NoneVerified(w, v)
    requires v.objects == w.objects && v.inFlight <= w.inFlight
    requires !(e.Storage? && e.storage.CleanLocked?)
    ensures Verified(v) && Serves(w, v, e)
  {
  }

  /** A removed object belongs to no available row and to no verified upload. */
  lemma RemovalServes(w: World, v: World, e: Event, key: ObjectKey)
    requires Verified(w) && KeysOk(w.rows) && v.rows == w.rows && NoneVerified(w, v)
    requires v.objects == w.objects - {key} && v.inFlight == w.inFlight
    requires forall m | m in w.uploads && w.uploads[m].pc == Stored :: w.uploads[m].key != key
    requires !IsAvailable(w, key.material) && !(e.Storage? && e.storage.CleanLocked?)
    ensures Verified(v) && Serves(w, v, e)
  {
    forall m | IsAvailable(w, m) ensures w.rows.materials[m].key != key {
      assert w.rows.materials[m].key.material == m;
    }
  }

  /** The key of an upload that is not verified is nobody else's, and its row is not available. */
  lemma OwnKey(w: World, m: MaterialId)
    requires ObjectsOk(w) && m in w.uploads && w.uploads[m].pc != Stored && Unpublished(w.uploads[m].pc)
    ensures !IsAvailable(w, m) && w.uploads[m].key.material == m
    ensures forall k | k in w.uploads && w.uploads[k].pc == Stored :: w.uploads[k].key != w.uploads[m].key
  {
    assert UploadOk(w, m, w.uploads[m]);
    forall k | k in w.uploads && w.uploads[k].pc == Stored ensures w.uploads[k].key != w.uploads[m].key {
      assert UploadOk(w, k, w.uploads[k]);
    }
  }

  lemma EffectShowsNothing(r: Rows, u: UserId, c: CourseId, m: MaterialId, step: UploadStep)
    requires !step.PublishMaterial?
    ensures NoneAppears(r, UploadEffect(r, u, c, m, step))
  {
  }

  predicate MovesObjects(step: UploadStep) {
    step.RemoveUnverified? || step.RemoveStored? || step.StartPut? || step.FinishPut? || step.PublishMaterial?
  }

  predicate SameStore(w: World, v: World) {
    v.objects == w.objects && v.inFlight == w.inFlight && NoneVerified(w, v)
  }

  lemma MetadataFrame(w: World, m: MaterialId, step: UploadStep)
    requires m in w.uploads && (step.CommitMetadata? || step.MarkForCompensation?)
    ensures SameStore(w, UploadNext(w, m, step))
  {
  }

  lemma DiscardFrame(w: World, m: MaterialId, step: UploadStep)
    requires m in w.uploads && (step.KeepUncertain? || step.KeepStored? || step.RemoveRow?)
    ensures SameStore(w, UploadNext(w, m, step))
  {
  }

  lemma GiveUpFrame(w: World, m: MaterialId, step: UploadStep)
    requires m in w.uploads && !MovesObjects(step) && !step.CommitMetadata? && !step.MarkForCompensation?
    requires !step.KeepUncertain? && !step.KeepStored? && !step.RemoveRow?
    ensures SameStore(w, UploadNext(w, m, step))
  {
  }

  lemma PlainUploadServes(w: World, m: MaterialId, step: UploadStep)
    requires Verified(w) && m in w.uploads && !MovesObjects(step)
    ensures Verified(UploadNext(w, m, step)) && Serves(w, UploadNext(w, m, step), Uploading(m, step))
  {
    var up := w.uploads[m];
    if step.CommitMetadata? || step.MarkForCompensation? {
      MetadataFrame(w, m, step);
    } else if step.KeepUncertain? || step.KeepStored? || step.RemoveRow? {
      DiscardFrame(w, m, step);
    } else {
      GiveUpFrame(w, m, step);
    }
    UploadEffectIsIt(w, m, step);
    EffectShowsNothing(w.rows, up.owner, up.course, m, step);
    QuietServes(w, UploadNext(w, m, step), Uploading(m, step));
  }

  predicate RemovesOwn(w: World, v: World, m: MaterialId)
    requires m in w.uploads
  {
    && v.rows == w.rows && v.inFlight == w.inFlight && NoneVerified(w, v)
    && (v.objects != w.objects ==>
          && v.objects == w.objects - {w.uploads[m].key}
          && (w.uploads[m].pc == Putting || w.uploads[m].pc == DiscardingStored))
  }

  lemma UnverifiedFrame(w: World, m: MaterialId)
    requires m in w.uploads
    ensures RemovesOwn(w, UploadNext(w, m, RemoveUnverified), m)
  {
  }

  lemma StoredFrame(w: World, m: MaterialId)
    requires m in w.uploads
    ensures RemovesOwn(w, UploadNext(w, m, RemoveStored), m)
  {
  }

  lemma RemovingServes(w: World, m: MaterialId, step: UploadStep)
    requires ObjectsOk(w) && Verified(w) && m in w.uploads && (step.RemoveUnverified? || step.RemoveStored?)
    ensures Verified(UploadNext(w, m, step)) && Serves(w, UploadNext(w, m, step), Uploading(m, step))
  {
    var v := UploadNext(w, m, step);
    UnverifiedFrame(w, m);
    StoredFrame(w, m);
    if v.objects == w.objects {
      QuietServes(w, v, Uploading(m, step));
    } else {
      OwnKey(w, m);
      RemovalServes(w, v, Uploading(m, step), w.uploads[m].key);
    }
  }

  lemma StartPutFrame(w: World, m: MaterialId)
    requires m in w.uploads
    ensures var v := UploadNext(w, m, StartPut);
            && v.rows == w.rows && v.objects == w.objects && NoneVerified(w, v)
            && (v.inFlight != w.inFlight ==>
                  v.inFlight == w.inFlight + {w.uploads[m].key} && w.uploads[m].pc == Committed)
  {
  }

  lemma StartPutServes(w: World, m: MaterialId)
    requires ObjectsOk(w) && Verified(w) && m in w.uploads
    ensures Verified(UploadNext(w, m, StartPut)) && Serves(w, UploadNext(w, m, StartPut), Uploading(m, StartPut))
  {
    var v := UploadNext(w, m, StartPut);
    StartPutFrame(w, m);
    if v.inFlight != w.inFlight {
      OwnKey(w, m);
      forall k | IsAvailable(v, k) ensures WriteSettled(v, v.rows.materials[k].key) {
        assert w.rows.materials[k].key.material == k;
      }
    }
  }

  lemma FinishPutServes(w: World, m: MaterialId)
    requires Verified(w) && m in w.uploads
    ensures Verified(UploadNext(w, m, FinishPut)) && Serves(w, UploadNext(w, m, FinishPut), Uploading(m, FinishPut))
  {
  }

  lemma PublishStore(w: World, m: MaterialId, step: UploadStep)
    requires m in w.uploads && step.PublishMaterial?
    ensures SameStore(w, UploadNext(w, m, step))
  {
  }

  lemma PublishRows(w: World, m: MaterialId, step: UploadStep)
    requires m in w.uploads && step.PublishMaterial?
    ensures var s := UploadNext(w, m, step).rows;
            s == w.rows || Publish(w.rows, w.uploads[m].owner, m, step.at) == Some(s)
  {
  }

  /** A row is published by the upload that has verified its object. */
  lemma PublishFrame(w: World, m: MaterialId, step: UploadStep)
    requires m in w.uploads && step.PublishMaterial? && IsReserved(w.rows, m)
    ensures var v := UploadNext(w, m, step);
            && SameStore(w, v) && v.rows.materials.Keys == w.rows.materials.Keys
            && v.rows.materials[m].key == w.rows.materials[m].key
            && forall k | k in v.rows.materials && k != m :: v.rows.materials[k] == w.rows.materials[k]
  {
    PublishStore(w, m, step);
    PublishRows(w, m, step);
    if Publish(w.rows, w.uploads[m].owner, m, step.at).Some? {
      PublishMoves(w.rows, w.uploads[m].owner, m, step.at);
    }
  }

  lemma PublishServes(w: World, m: MaterialId, step: UploadStep)
    requires ObjectsOk(w) && Verified(w) && m in w.uploads && step.PublishMaterial?
    ensures Verified(UploadNext(w, m, step)) && Serves(w, UploadNext(w, m, step), Uploading(m, step))
  {
    var up := w.uploads[m];
    assert UploadOk(w, m, up);
    if up.pc == Stored {
      PublishFrame(w, m, step);
      PublishedRowServes(w, UploadNext(w, m, step), m, Uploading(m, step));
    }
  }

  lemma PublishedRowServes(w: World, v: World, m: MaterialId, e: Event)
    requires Verified(w) && SameStore(w, v) && e.Uploading? && IsReserved(w.rows, m)
    requires m in w.uploads && w.uploads[m].pc == Stored && w.uploads[m].key == w.rows.materials[m].key
    requires WriteSettled(w, w.uploads[m].key)
    requires v.rows.materials.Keys == w.rows.materials.Keys
    requires v.rows.materials[m].key == w.rows.materials[m].key
    requires forall k | k in v.rows.materials && k != m :: v.rows.materials[k] == w.rows.materials[k]
    ensures Verified(v) && Serves(w, v, e)
  {
  }

  lemma UploadServes(w: World, m: MaterialId, step: UploadStep)
    requires ObjectsOk(w) && Verified(w) && m in w.uploads
    ensures Verified(UploadNext(w, m, step)) && Serves(w, UploadNext(w, m, step), Uploading(m, step))
  {
    if !MovesObjects(step) {
      PlainUploadServes(w, m, step);
    } else {
      match step {
        case StartPut => StartPutServes(w, m);
        case FinishPut => FinishPutServes(w, m);
        case PublishMaterial(_, _) => PublishServes(w, m, step);
        case _ => RemovingServes(w, m, step);
      }
    }
  }

  // ---------------------------------------------------------------- storage steps

  lemma CleanObjectServes(w: World, c: nat)
    requires ObjectsOk(w) && Verified(w)
    ensures var v := StorageNext(w, CleanObject(c));
            Verified(v) && Serves(w, v, Storage(CleanObject(c)))
  {
    if c in w.cleaners && WriteSettled(w, w.cleaners[c].key) {
      var key := w.cleaners[c].key;
      assert CleanerOk(w, w.cleaners[c]);
      forall m | m in w.uploads && w.uploads[m].pc == Stored ensures w.uploads[m].key != key {
        assert UploadOk(w, m, w.uploads[m]);
      }
      RemovalServes(w, StorageNext(w, CleanObject(c)), Storage(CleanObject(c)), key);
    }
  }

  /** What a deletion cleans under its lock is no verified upload's. */
  lemma LockedIsNotVerified(w: World, u: UserId, m: MaterialId, k: MaterialId)
    requires ObjectsOk(w) && m in LockedMaterials(w, u) && k in w.uploads && w.uploads[k].pc == Stored
    ensures w.uploads[k].key != w.rows.materials[m].key
  {
    assert UploadOk(w, k, w.uploads[k]);
    assert w.rows.materials[m].key.material == m;
  }

  lemma StrippingServes(w: World, v: World, e: Event, m: MaterialId)
    requires Verified(w) && KeysOk(w.rows) && m in w.rows.materials && e.Storage? && e.storage.CleanLocked?
    requires e.storage.material == m && (IsAvailable(w, m) ==> Strips(w, e, m))
    requires v.rows == w.rows && v.uploads == w.uploads && v.inFlight == w.inFlight
    requires v.objects == w.objects - {w.rows.materials[m].key}
    requires forall k | k in w.uploads && w.uploads[k].pc == Stored :: w.uploads[k].key != w.rows.materials[m].key
    ensures Verified(v) && Serves(w, v, e)
  {
    forall k | IsAvailable(w, k) && k != m ensures w.rows.materials[k].key != w.rows.materials[m].key {
      assert w.rows.materials[k].key.material == k && w.rows.materials[m].key.material == m;
    }
  }

  lemma CleanLockedServes(w: World, u: UserId, m: MaterialId)
    requires ObjectsOk(w) && Verified(w)
    ensures var v := StorageNext(w, CleanLocked(u, m));
            Verified(v) && Serves(w, v, Storage(CleanLocked(u, m)))
  {
    if m in LockedMaterials(w, u) && WriteSettled(w, w.rows.materials[m].key)
       && !(w.locks[u].AccountHolds? && BlocksAccount(w.rows.materials[m]))
    {
      forall k | k in w.uploads && w.uploads[k].pc == Stored {
        LockedIsNotVerified(w, u, m, k);
      }
      StrippingServes(w, StorageNext(w, CleanLocked(u, m)), Storage(CleanLocked(u, m)), m);
    }
  }

  lemma BeginDeleteShowsNothing(r: Rows, u: UserId, m: MaterialId, now: Time)
    requires BeginDelete(r, u, m, now).Some?
    ensures NoneAppears(r, BeginDelete(r, u, m, now).value)
  {
    BeginDeleteMoves(r, u, m, now);
  }

  lemma DeleteShowsNothing(w: World, u: UserId, m: MaterialId, now: Time)
    ensures NoneAppears(w.rows, StorageNext(w, DeleteMaterial(u, m, now)).rows)
  {
    var deleted := BeginDelete(w.rows, u, m, now);
    if deleted.Some? {
      BeginDeleteShowsNothing(w.rows, u, m, now);
    }
  }

  lemma RecoverShowsNothing(w: World, m: MaterialId, now: Time)
    ensures NoneAppears(w.rows, StorageNext(w, RecoverMaterial(m, now)).rows)
  {
    if m in w.rows.materials {
      RecoverMoves(w.rows, m, now);
    }
  }

  lemma MarkCourseShowsNothing(w: World, u: UserId, c: CourseId, now: Time)
    ensures NoneAppears(w.rows, StorageNext(w, MarkCourseDeleting(u, c, now)).rows)
  {
  }

  lemma ReserveShowsNothing(w: World, u: UserId, c: CourseId, objectId: nat)
    requires KeysOk(w.rows)
    ensures NoneAppears(w.rows, StorageNext(w, ReserveUpload(u, c, objectId)).rows)
  {
    ReserveKeepsRows(w, u, c, objectId);
  }

  lemma MarkingShowsNothing(w: World, step: StorageStep)
    requires KeysOk(w.rows) && MarksRows(step)
    ensures NoneAppears(w.rows, StorageNext(w, step).rows)
  {
    match step {
      case ReserveUpload(u, c, objectId) => ReserveShowsNothing(w, u, c, objectId);
      case DeleteMaterial(u, m, now) => DeleteShowsNothing(w, u, m, now);
      case RecoverMaterial(m, now) => RecoverShowsNothing(w, m, now);
      case MarkCourseDeleting(u, c, now) => MarkCourseShowsNothing(w, u, c, now);
    }
  }

  lemma MarkingStore(w: World, step: StorageStep)
    requires MarksRows(step)
    ensures SameStore(w, StorageNext(w, step))
  {
  }

  lemma LockedShowsNothing(w: World, step: StorageStep)
    requires step.CommitCourse? || step.CommitAccount? || step.FailAccount?
    ensures NoneAppears(w.rows, StorageNext(w, step).rows) && SameStore(w, StorageNext(w, step))
  {
  }

  lemma CleaningShowsNothing(w: World, c: nat, now: Time)
    ensures NoneAppears(w.rows, StorageNext(w, FinishCleaning(c, now)).rows)
    ensures SameStore(w, StorageNext(w, FinishCleaning(c, now)))
  {
    if c in w.cleaners {
      CleaningMoves(w, c, now);
    }
  }

  lemma WriteServes(w: World, step: StorageStep)
    requires Verified(w) && (step.LandWrite? || step.SettleWrite?)
    ensures Verified(StorageNext(w, step)) && Serves(w, StorageNext(w, step), Storage(step))
  {
  }

  lemma LockingServes(w: World, step: StorageStep)
    requires Verified(w) && (step.LockCourse? || step.LockAccount? || step.AbortLocked?)
    ensures Verified(StorageNext(w, step)) && Serves(w, StorageNext(w, step), Storage(step))
  {
    QuietServes(w, StorageNext(w, step), Storage(step));
  }

  predicate SettlesRows(step: StorageStep) {
    MarksRows(step) || step.FinishCleaning? || step.CommitCourse? || step.CommitAccount? || step.FailAccount?
  }

  lemma SettlingServes(w: World, step: StorageStep)
    requires KeysOk(w.rows) && Verified(w) && SettlesRows(step)
    ensures Verified(StorageNext(w, step)) && Serves(w, StorageNext(w, step), Storage(step))
  {
    if MarksRows(step) {
      MarkingShowsNothing(w, step);
      MarkingStore(w, step);
    } else if step.FinishCleaning? {
      CleaningShowsNothing(w, step.cleaner, step.at);
    } else {
      LockedShowsNothing(w, step);
    }
    QuietServes(w, StorageNext(w, step), Storage(step));
  }

  lemma StorageServes(w: World, step: StorageStep)
    requires ObjectsOk(w) && Verified(w)
    ensures Verified(StorageNext(w, step)) && Serves(w, StorageNext(w, step), Storage(step))
  {
    if SettlesRows(step) {
      SettlingServes(w, step);
    } else {
      match step {
        case CleanObject(c) => CleanObjectServes(w, c);
        case CleanLocked(u, m) => CleanLockedServes(w, u, m);
        case LandWrite(_) => WriteServes(w, step);
        case SettleWrite(_) => WriteServes(w, step);
        case _ => LockingServes(w, step);
      }
    }
  }

  lemma NextServes(w: World, e: Event)
    requires ObjectsOk(w) && Verified(w)
    ensures Verified(Next(w, e)) && Serves(w, Next(w, e), e)
  {
    match e {
      case Worker(l, step) =>
        if l in w.attempts {
          WorkerSame(w, l, w.attempts[l], step);
        }
        QuietServes(w, Next(w, e), e);
      case Service(u, call) =>
        ServiceSame(w, u, call);
        ServiceTables(w, u, call);
        QuietServes(w, Next(w, e), e);
      case Uploading(m, step) =>
        if m in w.uploads {
          UploadServes(w, m, step);
        }
      case Storage(step) => StorageServes(w, step);
    }
  }

  // ---------------------------------------------------------------- runs

  /** Between two states of a run in which the row is available it is available throughout. */
  lemma AvailableBetween(w: World, e: Event, events: seq<Event>, m: MaterialId)
    requires ObjectsOk(w) && IsAvailable(w, m) && IsAvailable(Run(Next(w, e), events), m)
    ensures IsAvailable(Next(w, e), m)
  {
    assert m < w.rows.nextMaterial;
    NoRowComesBack(w, e, m);
    NextKeepsObjects(w, e);
    StorageForwardOverRuns(Next(w, e), events, m);
  }

  lemma {:induction false} ServedOverRuns(w: World, events: seq<Event>, m: MaterialId)
    requires ObjectsOk(w) && Verified(w) && IsAvailable(Run(w, events), m)
    ensures HasObject(Run(w, events), m) <==> (IsAvailable(w, m) ==> HasObject(w, m)) && !Stripped(w, events, m)
    decreases |events|
  {
    if events != [] {
      NextServes(w, events[0]);
      NextKeepsObjects(w, events[0]);
      ServedOverRuns(Next(w, events[0]), events[1..], m);
      if IsAvailable(w, m) {
        AvailableBetween(w, events[0], events[1..], m);
      }
    }
  }

  /**
   In every reachable state an AVAILABLE material has its object exactly when no deletion
   that then failed had removed it while the row was AVAILABLE.
   */
  lemma AvailableHasObjectIff(users: map<UserId, User>, events: seq<Event>, m: MaterialId)
    requires IsAvailable(Run(Init(users), events), m)
    ensures HasObject(Run(Init(users), events), m) <==> !Stripped(Init(users), events, m)
  {
    ServedOverRuns(Init(users), events, m);
  }
}
