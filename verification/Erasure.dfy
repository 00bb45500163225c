/**
 Deleting means deleting: a tombstone has no object left, and once an account deletion
 commits, nothing of the user is stored, in that state or in any later one.
 */
module Erasure {
  import opened Options
  import opened Tables
  import opened Materials
  import opened Lifecycle
  import opened Objects
  import opened Quotas

  /** In every reachable state nothing is stored, or about to be, under the key of a tombstone. */
  lemma TombstoneHasNoObject(users: map<UserId, User>, events: seq<Event>, m: MaterialId)
    requires m in Run(Init(users), events).rows.materials
    requires Run(Init(users), events).rows.materials[m].storage == Deleted
    ensures Absent(Run(Init(users), events), Run(Init(users), events).rows.materials[m].key)
  {
    RunKeepsObjects(Init(users), events);
    var w := Run(Init(users), events);
    assert w.rows.materials[m].key.material == m;
  }

  /** The user row is gone and with it every material row. */
  predicate Erased(w: World, u: UserId) {
    u !in w.rows.users && forall m | m in w.rows.materials :: w.rows.materials[m].owner != u
  }

  lemma ErasedHasNoObject(w: World, u: UserId, key: ObjectKey)
    requires ObjectsOk(w) && Erased(w, u) && key.user == u
    ensures Absent(w, key)
  {
    assert !Recorded(w.rows, key);
  }

  lemma CommitErases(w: World, u: UserId)
    requires u in w.rows.users && u !in StorageNext(w, CommitAccount(u)).rows.users
    ensures Erased(StorageNext(w, CommitAccount(u)), u)
  {
  }

  /** Only an active user gets a new row. */
  lemma ReserveKeepsErased(w: World, v: UserId, c: CourseId, objectId: nat, u: UserId)
    requires Erased(w, u)
    ensures Erased(StorageNext(w, ReserveUpload(v, c, objectId)), u)
  {
    if Unlocked(w, v) && Reserve(w.rows, v, c, objectId).Some? {
      var t := StorageNext(w, ReserveUpload(v, c, objectId));
      assert t.rows == Reserve(w.rows, v, c, objectId).value;
    }
  }

  /** A committed upload keeps its owner. */
  lemma CommitKeepsErased(w: World, m: MaterialId, step: UploadStep, u: UserId)
    requires Erased(w, u) && m in w.uploads && step.CommitMetadata?
    ensures Erased(UploadNext(w, m, step), u)
  {
    var up := w.uploads[m];
    var committed := CommitUpload(w.rows, up.owner, up.course, m, step.size, step.hash);
    var t := UploadNext(w, m, step);
    assert t.rows == w.rows || (committed.Some? && t.rows == committed.value);
  }

  lemma StepKeepsErased(w: World, e: Event, u: UserId)
    requires ObjectsOk(w) && Erased(w, u)
    ensures Erased(Next(w, e), u)
  {
    if AddsUsage(e) {
      if e.Storage? {
        ReserveKeepsErased(w, e.storage.user, e.storage.course, e.storage.objectId, u);
      } else if e.material in w.uploads {
        CommitKeepsErased(w, e.material, e.upload, u);
      }
    } else {
      NextMoves(w, e);
      MovesKeepErased(w.rows, Next(w, e).rows, u);
    }
  }

  lemma MovesKeepErased(r: Rows, s: Rows, u: UserId)
    requires StorageMoves(r, s) && u !in r.users && forall m | m in r.materials :: r.materials[m].owner != u
    ensures u !in s.users && forall m | m in s.materials :: s.materials[m].owner != u
  {
    forall m | m in s.materials ensures s.materials[m].owner != u {
      assert SameFile(r.materials[m], s.materials[m]);
    }
  }

  lemma {:induction false} ErasedForever(w: World, events: seq<Event>, u: UserId)
    requires ObjectsOk(w) && Erased(w, u)
    ensures ObjectsOk(Run(w, events)) && Erased(Run(w, events), u)
    decreases |events|
  {
    if events != [] {
      NextKeepsObjects(w, events[0]);
      StepKeepsErased(w, events[0], u);
      ErasedForever(Next(w, events[0]), events[1..], u);
    }
  }

  /** Once an account's deletion commits, no object of the user is stored or in flight in any later state. */
  lemma AccountLeavesNothing(users: map<UserId, User>, before: seq<Event>, u: UserId, rest: seq<Event>, key: ObjectKey)
    requires u in Run(Init(users), before).rows.users && key.user == u
    requires u !in Next(Run(Init(users), before), Storage(CommitAccount(u))).rows.users
    ensures Absent(Run(Next(Run(Init(users), before), Storage(CommitAccount(u))), rest), key)
  {
    var w := Run(Init(users), before);
    RunKeepsObjects(Init(users), before);
    CommitErases(w, u);
    NextKeepsObjects(w, Storage(CommitAccount(u)));
    ErasedForever(Next(w, Storage(CommitAccount(u))), rest, u);
    ErasedHasNoObject(Run(Next(w, Storage(CommitAccount(u))), rest), u, key);
  }

  /** The course holds its lock and this step commits its deletion. */
  predicate CommitsCourse(w: World, u: UserId, c: CourseId) {
    && u in w.locks && w.locks[u].CourseHolds? && w.locks[u].course == c
    && u !in Next(w, Storage(CommitCourse(u))).locks
  }

  lemma CommitUnrecords(w: World, u: UserId, c: CourseId, key: ObjectKey)
    requires ObjectsOk(w) && CommitsCourse(w, u, c) && key.user == u && key.course == c
    ensures !Recorded(Next(w, Storage(CommitCourse(u))).rows, key)
  {
    var v := Next(w, Storage(CommitCourse(u)));
    assert v.rows.materials == w.rows.materials - CourseMaterials(w.rows, u, c);
  }

  /** A key of a row that is gone is never recorded again. */
  lemma UnrecordedForever(w: World, events: seq<Event>, key: ObjectKey)
    requires ObjectsOk(w) && !Recorded(w.rows, key) && key.material < w.rows.nextMaterial
    ensures Absent(Run(w, events), key)
  {
    RunKeepsObjects(w, events);
    StorageForwardOverRuns(w, events, key.material);
    assert !Recorded(Run(w, events).rows, key);
  }

  /**
   When a course deletion commits, no object of the course is stored or in flight; and no
   later state has an object under a key that the course had by then.
   */
  lemma CourseLeavesNothing(users: map<UserId, User>, before: seq<Event>, u: UserId, c: CourseId, key: ObjectKey,
                            rest: seq<Event>)
    requires CommitsCourse(Run(Init(users), before), u, c) && key.user == u && key.course == c
    ensures Absent(Next(Run(Init(users), before), Storage(CommitCourse(u))), key)
    ensures key.material < Run(Init(users), before).rows.nextMaterial ==>
              Absent(Run(Next(Run(Init(users), before), Storage(CommitCourse(u))), rest), key)
  {
    var w := Run(Init(users), before);
    var v := Next(w, Storage(CommitCourse(u)));
    RunKeepsObjects(Init(users), before);
    NextKeepsObjects(w, Storage(CommitCourse(u)));
    CommitUnrecords(w, u, c, key);
    assert v.rows.nextMaterial == w.rows.nextMaterial;
    if key.material < v.rows.nextMaterial {
      UnrecordedForever(v, rest, key);
    }
  }
}
