/**
 The recovery pass over stale reservations and unfinished deletions: a loop over candidate
 rows with counters for its report. Each candidate is locked, reloaded and settled in its
 own transactions; anything that goes wrong leaves the row for the next pass.
 */
module StorageRecovery {
  import opened Options
  import opened Tables
  import opened RowInvariants
  import opened MaterialRows
  import opened Database
  import Materials
  import MaterialService

  /** What stops the recovery of a candidate, if anything does. */
  datatype Trouble = Smooth | OwnerBusy | IndexFails | StoreFails | OwnerBusyLater | IndexFailsLater

  datatype Report = Report(scanned: nat, objectsCleaned: nat, tombstones: nat, pending: nat)

  /** One candidate from start to end when nobody else runs in between. */
  function RecoverOne(r: Rows, m: MaterialId, now: Time, trouble: Trouble): Rows {
    if trouble.OwnerBusy? || !Materials.NeedsRecovery(r, m, now) then r
    else if r.materials[m].storage == Available then
      if trouble.IndexFails? then r else Materials.RecoverStorage(r, m, now)
    else
      var s := Materials.RecoverStorage(r, m, now);
      if trouble.StoreFails? || trouble.OwnerBusyLater? || trouble.IndexFailsLater? then s
      else Materials.FinishRecovery(s, m, now)
  }

  function RecoverAll(r: Rows, ids: seq<MaterialId>, now: Time, trouble: MaterialId -> Trouble): Rows {
    if ids == [] then r
    else RecoverOne(RecoverAll(r, ids[..|ids| - 1], now, trouble), ids[|ids| - 1], now, trouble(ids[|ids| - 1]))
  }

  // ---------------------------------------------------------------- what the report counts

  /** The object of the row is removed. */
  predicate ObjectGoes(r: Rows, m: MaterialId, now: Time, trouble: Trouble) {
    && Materials.NeedsRecovery(r, m, now) && r.materials[m].storage != Available
    && !trouble.OwnerBusy? && !trouble.StoreFails?
  }

  /** And the row becomes a tombstone. */
  predicate BecomesTombstone(r: Rows, m: MaterialId, now: Time, trouble: Trouble) {
    ObjectGoes(r, m, now, trouble) && !trouble.OwnerBusyLater? && !trouble.IndexFailsLater?
  }

  /** Something went wrong on the way, so the row is left for the next pass. */
  predicate StaysPending(r: Rows, m: MaterialId, now: Time, trouble: Trouble) {
    || trouble.OwnerBusy?
    || (Materials.NeedsRecovery(r, m, now)
        && if r.materials[m].storage == Available then trouble.IndexFails?
           else trouble.StoreFails? || trouble.OwnerBusyLater? || trouble.IndexFailsLater?)
  }

  ghost function Those(ids: seq<MaterialId>, p: MaterialId -> bool): set<MaterialId> {
    set m | m in ids && p(m)
  }

  predicate NoRepeats(ids: seq<MaterialId>) {
    forall i, j | 0 <= i < j < |ids| :: ids[i] != ids[j]
  }

  lemma OneMore(ids: seq<MaterialId>, i: nat, p: MaterialId -> bool)
    requires i < |ids| && NoRepeats(ids)
    ensures |Those(ids[..i + 1], p)| == |Those(ids[..i], p)| + if p(ids[i]) then 1 else 0
  {
    assert ids[..i + 1] == ids[..i] + [ids[i]];
    if p(ids[i]) {
      assert Those(ids[..i + 1], p) == Those(ids[..i], p) + {ids[i]};
    } else {
      assert Those(ids[..i + 1], p) == Those(ids[..i], p);
    }
  }

  /** The counters after the first `i` candidates of a pass that started in `r`. */
  ghost predicate Counts(r: Rows, ids: seq<MaterialId>, i: nat, now: Time, trouble: MaterialId -> Trouble,
                         report: Report)
    requires i <= |ids|
  {
    && report.scanned == |ids|
    && report.objectsCleaned == |Those(ids[..i], (m: MaterialId) => ObjectGoes(r, m, now, trouble(m)))|
    && report.tombstones == |Those(ids[..i], (m: MaterialId) => BecomesTombstone(r, m, now, trouble(m)))|
    && report.pending == |Those(ids[..i], (m: MaterialId) => StaysPending(r, m, now, trouble(m)))|
  }

  /** Recovering one candidate changes no other row that recovery looks at. */
  lemma RecoverOneTouches(r: Rows, m: MaterialId, now: Time, trouble: Trouble)
    ensures var s := RecoverOne(r, m, now, trouble);
            && s.users == r.users && s.materials.Keys == r.materials.Keys
            && forall k | k in r.materials && k != m :: s.materials[k] == r.materials[k]
  {
  }

  lemma {:induction false} RecoverAllTouches(r: Rows, ids: seq<MaterialId>, now: Time, trouble: MaterialId -> Trouble)
    ensures var s := RecoverAll(r, ids, now, trouble);
            && s.users == r.users && s.materials.Keys == r.materials.Keys
            && forall k | k in r.materials && k !in ids :: s.materials[k] == r.materials[k]
  {
    if ids != [] {
      var before, last := ids[..|ids| - 1], ids[|ids| - 1];
      RecoverAllTouches(r, before, now, trouble);
      RecoverOneTouches(RecoverAll(r, before, now, trouble), last, now, trouble(last));
      assert ids == before + [last];
    }
  }

  /** A candidate is met as it was at the start of the pass. */
  lemma MetAsItWas(r: Rows, ids: seq<MaterialId>, i: nat, now: Time, trouble: MaterialId -> Trouble)
    requires i < |ids| && NoRepeats(ids)
    ensures var s, m, t := RecoverAll(r, ids[..i], now, trouble), ids[i], trouble(ids[i]);
            && ObjectGoes(s, m, now, t) == ObjectGoes(r, m, now, t)
            && BecomesTombstone(s, m, now, t) == BecomesTombstone(r, m, now, t)
            && StaysPending(s, m, now, t) == StaysPending(r, m, now, t)
  {
    RecoverAllTouches(r, ids[..i], now, trouble);
    assert ids[i] !in ids[..i];
  }

  function Plus(n: nat, more: bool): nat {
    if more then n + 1 else n
  }

  lemma CountsNext(r: Rows, ids: seq<MaterialId>, i: nat, now: Time, trouble: MaterialId -> Trouble, report: Report,
                   cleaned: bool, tombstone: bool, left: bool)
    requires i < |ids| && NoRepeats(ids) && Counts(r, ids, i, now, trouble, report)
    requires var s, m, t := RecoverAll(r, ids[..i], now, trouble), ids[i], trouble(ids[i]);
             && cleaned == ObjectGoes(s, m, now, t)
             && tombstone == BecomesTombstone(s, m, now, t)
             && left == StaysPending(s, m, now, t)
    ensures Counts(r, ids, i + 1, now, trouble,
                   Report(|ids|, Plus(report.objectsCleaned, cleaned), Plus(report.tombstones, tombstone),
                          Plus(report.pending, left)))
  {
    MetAsItWas(r, ids, i, now, trouble);
    OneMore(ids, i, (m: MaterialId) => ObjectGoes(r, m, now, trouble(m)));
    OneMore(ids, i, (m: MaterialId) => BecomesTombstone(r, m, now, trouble(m)));
    OneMore(ids, i, (m: MaterialId) => StaysPending(r, m, now, trouble(m)));
  }

  method RecoverStale(db: Session, ids: seq<MaterialId>, now: Time, trouble: MaterialId -> Trouble)
    returns (report: Report)
    modifies db
    ensures db.Snapshot() == RecoverAll(old(db.Snapshot()), ids, now, trouble)
    ensures Preserves(old(db.Snapshot()), db.Snapshot())
    ensures NoRepeats(ids) ==> Counts(old(db.Snapshot()), ids, |ids|, now, trouble, report)
  {
    report := Report(|ids|, 0, 0, 0);
    ghost var r := db.Snapshot();
    forall n | RowsOk(r, n) {
      QuietRefl(r, n);
    }
    for i := 0 to |ids|
      invariant db.Snapshot() == RecoverAll(r, ids[..i], now, trouble)
      invariant Preserves(r, db.Snapshot())
      invariant report.scanned == |ids| && (NoRepeats(ids) ==> Counts(r, ids, i, now, trouble, report))
    {
      assert ids[..i + 1][..i] == ids[..i];
      ghost var s := db.Snapshot();
      var cleaned, tombstone, left := RecoverCandidate(db, ids[i], now, trouble(ids[i]));
      PreservesTrans(r, s, db.Snapshot());
      if NoRepeats(ids) {
        CountsNext(r, ids, i, now, trouble, report, cleaned, tombstone, left);
      }
      report := Report(|ids|, Plus(report.objectsCleaned, cleaned), Plus(report.tombstones, tombstone),
                       Plus(report.pending, left));
    }
    assert ids[..|ids|] == ids;
  }

  method RecoverCandidate(db: Session, m: MaterialId, now: Time, trouble: Trouble)
    returns (cleaned: bool, tombstone: bool, left: bool)
    modifies db
    ensures db.Snapshot() == RecoverOne(old(db.Snapshot()), m, now, trouble)
    ensures Preserves(old(db.Snapshot()), db.Snapshot())
    ensures cleaned == ObjectGoes(old(db.Snapshot()), m, now, trouble)
    ensures tombstone == BecomesTombstone(old(db.Snapshot()), m, now, trouble)
    ensures left == StaysPending(old(db.Snapshot()), m, now, trouble)
    ensures tombstone ==> m in db.materials && db.materials[m].storage == Deleted
  {
    cleaned, tombstone, left := false, false, false;
    ghost var r := db.Snapshot();
    forall n | RowsOk(r, n) {
      QuietRefl(r, n);
    }
    if trouble.OwnerBusy? {
      left := true;
      return;
    }
    if m !in db.materials || !db.Exists(db.materials[m].owner) || !Materials.RecoverableMaterial(db.materials[m], now) {
      return;
    }
    if db.materials[m].storage == Available && trouble.IndexFails? {
      left := true;
      return;
    }
    var cleanObject := MaterialService.RecoverMaterial(db, m, now);
    if !cleanObject {
      return;
    }
    if trouble.StoreFails? {
      left := true;
      return;
    }
    cleaned := true;
    if trouble.OwnerBusyLater? || trouble.IndexFailsLater? {
      left := true;
      return;
    }
    ghost var s := db.Snapshot();
    MaterialService.FinishRecovery(db, m, now);
    PreservesTrans(r, s, db.Snapshot());
    tombstone := true;
  }

  // ---------------------------------------------------------------- an undisturbed pass leaves nothing to recover

  lemma RecoverOneSettles(r: Rows, m: MaterialId, now: Time)
    ensures !Materials.NeedsRecovery(RecoverOne(r, m, now, Smooth), m, now)
  {
    if Materials.NeedsRecovery(r, m, now) && r.materials[m].storage != Available {
      var s := Materials.RecoverStorage(r, m, now);
      assert Materials.RecoverableMaterial(s.materials[m], now);
    }
  }

  /**
   What happens to a recoverable row. Its processing is reset, or its object goes for good;
   trouble before the first write leaves it as it was, and trouble after it leaves it hidden.
   */
  lemma RecoverOneOutcome(r: Rows, m: MaterialId, now: Time, trouble: Trouble)
    requires Materials.NeedsRecovery(r, m, now)
    ensures var before, after := r.materials[m], RecoverOne(r, m, now, trouble).materials[m];
            if trouble.OwnerBusy? || (before.storage == Available && trouble.IndexFails?) then after == before
            else if before.storage == Available
            then after == before.(processing := ProcessingFailed, lease := None, leaseExpires := None,
                                  message := FailedMessage, chunks := {})
            else if BecomesTombstone(r, m, now, trouble)
            then after == before.(storage := Deleted, uncertain := false, chunks := {}, message := NoMessage)
            else after == before.(storage := Deleting, message := StorageCleanupPending)
  {
    if r.materials[m].storage != Available {
      var s := Materials.RecoverStorage(r, m, now);
      assert Materials.RecoverableMaterial(s.materials[m], now);
    }
  }

  /** After a pass without trouble no candidate is left for the next one. */
  lemma {:induction false} PassIsComplete(r: Rows, ids: seq<MaterialId>, now: Time, trouble: MaterialId -> Trouble)
    requires forall m | m in ids :: trouble(m).Smooth?
    ensures var s := RecoverAll(r, ids, now, trouble);
            && s.users == r.users && s.materials.Keys == r.materials.Keys
            && forall m | m in ids :: !Materials.NeedsRecovery(s, m, now)
  {
    if ids != [] {
      var before, last := ids[..|ids| - 1], ids[|ids| - 1];
      PassIsComplete(r, before, now, trouble);
      RecoverOneTouches(RecoverAll(r, before, now, trouble), last, now, trouble(last));
      RecoverOneSettles(RecoverAll(r, before, now, trouble), last, now);
      assert ids == before + [last];
    }
  }
}
