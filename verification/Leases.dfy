/**
 Every run of the pipeline has a sound history: the lease, cancellation, attempt, budget
 and queue rules hold at every event, whatever the interleaving.
 */
module Leases {
  import opened Options
  import opened Tables
  import opened Histories
  import opened Jobs
  import opened Materials
  import opened RowInvariants
  import opened MaterialRows
  import opened Lifecycle

  predicate SawReady(pc: AttemptPc) {
    pc == ToSucceed || pc == Refreshed(true)
  }

  predicate AttemptOk(r: Rows, bound: LeaseId, l: LeaseId, a: Attempt) {
    && l < bound
    && a.job < r.nextJob
    && a.material < r.nextMaterial
    && WasClaimed(r.history, a.job, a.series, a.number)
    && (a.job in r.jobs ==> r.jobs[a.job].material == a.material)
    && (a.material in r.materials ==>
          && OwnsJob(r, a.owner, a.job)
          && a.series <= r.jobs[a.job].series
          && (a.series == r.jobs[a.job].series ==> a.number <= r.jobs[a.job].attemptCount)
          && (r.jobs[a.job].status == Cancelled ==> r.materials[a.material].lease != Some(l))
          && (r.materials[a.material].lease == Some(l) ==> !BeforeLease(a.pc)))
    && (BeforeLease(a.pc) ==> !WasWritten(r.history, l))
    && (SawReady(a.pc) ==> WasReady(r.history, a.material))
  }

  ghost predicate AttemptsOk(w: World) {
    && (forall l | l in w.attempts :: AttemptOk(w.rows, w.nextLease, l, w.attempts[l]))
    && (forall l | l in w.reprocesses :: l < w.nextLease && l !in w.attempts)
    && (forall m | m in w.rows.materials && w.rows.materials[m].lease.Some? ::
          w.rows.materials[m].lease.value in w.attempts ==>
          w.attempts[w.rows.materials[m].lease.value].material == m)
  }

  ghost predicate WorkersOk(w: World) {
    RowsOk(w.rows, w.nextLease) && AttemptsOk(w)
  }

  /** The READY update of the attempt that holds lease `l`, on an available material. */
  predicate SetsReady(w: World, e: Event) {
    && e.Worker? && e.work.SetReady?
    && e.lease in w.attempts
    && w.attempts[e.lease].pc == Finishing
    && HoldsLease(w.rows, w.attempts[e.lease].material, e.lease)
  }

  /**
   What one step may do: move jobs forward, put only new lease ids on rows, and make a
   material ready or a lease used up only by the READY update of the lease holder.
   */
  ghost predicate Legal(w: World, e: Event, s: Rows) {
    var r := w.rows;
    && Moves(r, s)
    && (forall m | m in s.materials && s.materials[m].lease.Some? ::
          || (m in r.materials && r.materials[m].lease == s.materials[m].lease)
          || !WasWritten(r.history, s.materials[m].lease.value))
    && (forall m | m in s.materials && m in r.materials ::
          s.materials[m].processing == Ready && r.materials[m].processing != Ready ==>
            SetsReady(w, e) && w.attempts[e.lease].material == m)
    && (forall l :: WasReadied(s.history, l) && !WasReadied(r.history, l) ==>
          SetsReady(w, e) && e.lease == l)
  }

  lemma AttemptKept(r: Rows, s: Rows, n: LeaseId, l: LeaseId, a: Attempt)
    requires RowsOk(r, n) && Keeps(r, s, n) && AttemptOk(r, n, l, a)
    ensures AttemptOk(s, n, l, a)
  {
    ExtendsKeepsFacts(r.history, s.history);
  }

  /** A quiet transaction keeps what is known of every attempt. */
  lemma QuietKeeps(w: World, s: Rows)
    requires WorkersOk(w) && Keeps(w.rows, s, w.nextLease)
    ensures WorkersOk(w.(rows := s))
  {
    forall l | l in w.attempts ensures AttemptOk(s, w.nextLease, l, w.attempts[l]) {
      AttemptKept(w.rows, s, w.nextLease, l, w.attempts[l]);
    }
  }

  /** The same, for the transaction of one attempt that moves to a program counter it has earned. */
  lemma QuietMove(w: World, s: Rows, l: LeaseId, a: Attempt)
    requires WorkersOk(w) && Keeps(w.rows, s, w.nextLease) && l in w.attempts
    requires a == w.attempts[l].(pc := a.pc, chunks := a.chunks, dropped := a.dropped)
    requires BeforeLease(a.pc) ==> BeforeLease(w.attempts[l].pc)
    requires SawReady(a.pc) ==> WasReady(s.history, a.material)
    ensures WorkersOk(w.(rows := s, attempts := w.attempts[l := a]))
  {
    QuietKeeps(w, s);
  }

  /** The other attempts are not touched by it. */
  lemma LeaseKeepsOthers(r: Rows, m: MaterialId, l: LeaseId, mat: Material, n: LeaseId, k: LeaseId, a: Attempt)
    requires m in r.materials && mat.owner == r.materials[m].owner && mat.lease == Some(l)
    requires k != l && AttemptOk(r, n, k, a)
    ensures AttemptOk(Log(PutMaterial(r, m, mat), Wrote(m, l)), n, k, a)
  {
  }

  /** Handing lease `l` to the attempt that drew it, or to a call that is no attempt. */
  lemma LeaseKeeps(w: World, m: MaterialId, l: LeaseId, mat: Material)
    requires WorkersOk(w) && m in w.rows.materials && l < w.nextLease && !WasWritten(w.rows.history, l)
    requires mat.key == w.rows.materials[m].key && mat.owner == w.rows.materials[m].owner
    requires mat.processing == Processing && mat.lease == Some(l)
    requires l in w.attempts ==>
               && w.attempts[l].material == m
               && !BeforeLease(w.attempts[l].pc)
               && w.attempts[l].job in w.rows.jobs
               && w.rows.jobs[w.attempts[l].job].status != Cancelled
    ensures WorkersOk(w.(rows := Log(PutMaterial(w.rows, m, mat), Wrote(m, l))))
  {
    var s := Log(PutMaterial(w.rows, m, mat), Wrote(m, l));
    LeaseRowsOk(w.rows, m, l, mat, w.nextLease);
    forall k | k in w.attempts ensures AttemptOk(s, w.nextLease, k, w.attempts[k]) {
      if k != l {
        LeaseKeepsOthers(w.rows, m, l, mat, w.nextLease, k, w.attempts[k]);
      }
    }
  }

  /** The attempt reports progress, which hands out no lease. */
  lemma ReportMoves(w: World, l: LeaseId, a: Attempt, now: Time)
    requires WorkersOk(w) && l in w.attempts && a == w.attempts[l].(pc := Parsing)
    ensures var p := UpdateProgress(w.rows, a.owner, a.job, 25, Some(a.number), now);
            WorkersOk(w.(rows := p, attempts := w.attempts[l := a]))
  {
    UpdateProgressOk(w.rows, a.owner, a.job, 25, Some(a.number), now, w.nextLease);
    QuietMove(w, UpdateProgress(w.rows, a.owner, a.job, 25, Some(a.number), now), l, a);
  }

  lemma WriteLeaseOk(w: World, l: LeaseId, now: Time)
    requires WorkersOk(w) && l in w.attempts && w.attempts[l].pc == Downloaded
    ensures var a := w.attempts[l];
            var s := TakeLease(w.rows, a.owner, a.job, a.number, a.material, l, now);
            WorkersOk(w.(rows := s, attempts := w.attempts[l := a.(pc := Parsing)]))
  {
    var r, a := w.rows, w.attempts[l];
    assert AttemptOk(r, w.nextLease, l, a);
    if IsCurrentAttempt(r, a.owner, a.job, Some(a.number)) && a.material in r.materials {
      var p := UpdateProgress(r, a.owner, a.job, 25, Some(a.number), now);
      ReportMoves(w, l, a.(pc := Parsing), now);
      LeaseKeeps(w.(rows := p, attempts := w.attempts[l := a.(pc := Parsing)]),
                 a.material, l, Leased(r.materials[a.material], l, now + LEASE_DURATION));
    } else {
      QuietRefl(r, w.nextLease);
      QuietMove(w, r, l, a.(pc := Parsing));
    }
  }

  lemma ReadyKeepsAttempt(r: Rows, m: MaterialId, l: LeaseId, j: JobId, n: LeaseId, k: LeaseId, a: Attempt)
    requires AttemptOk(r, n, k, a)
    ensures AttemptOk(MarkReady(r, m, l, j), n, k, a)
  {
  }

  lemma ReadyAttempts(w: World, v: World, l: LeaseId, a: Attempt)
    requires WorkersOk(w) && l in w.attempts && a.material == w.attempts[l].material
    requires v.rows == MarkReady(w.rows, a.material, l, a.job) && v.attempts == w.attempts[l := a]
    requires v.reprocesses == w.reprocesses && v.nextLease == w.nextLease
    requires AttemptOk(v.rows, v.nextLease, l, a)
    ensures AttemptsOk(v)
  {
    forall k | k in v.attempts ensures AttemptOk(v.rows, v.nextLease, k, v.attempts[k]) {
      if k != l {
        ReadyKeepsAttempt(w.rows, a.material, l, a.job, w.nextLease, k, w.attempts[k]);
      }
    }
  }

  lemma SetReadyOk(w: World, l: LeaseId, pc: AttemptPc)
    requires WorkersOk(w) && l in w.attempts && w.attempts[l].pc == Finishing
    requires HoldsLease(w.rows, w.attempts[l].material, l)
    requires !BeforeLease(pc) && !SawReady(pc)
    ensures var a := w.attempts[l];
            WorkersOk(w.(rows := MarkReady(w.rows, a.material, l, a.job),
                         attempts := w.attempts[l := a.(pc := pc)]))
  {
    var a := w.attempts[l];
    var s := MarkReady(w.rows, a.material, l, a.job);
    assert AttemptOk(w.rows, w.nextLease, l, a);
    assert JobOk(w.rows.history, a.job, w.rows.jobs[a.job]);
    MarkReadyRowsOk(w.rows, a.material, l, a.job, w.nextLease);
    ReadyKeepsAttempt(w.rows, a.material, l, a.job, w.nextLease, l, a.(pc := Finishing));
    ReadyAttempts(w, w.(rows := s, attempts := w.attempts[l := a.(pc := pc)]), l, a.(pc := pc));
  }

  lemma OutcomeOk(r: Rows, a: Attempt, now: Time, n: LeaseId)
    requires RowsOk(r, n) && !LostJob(r, a) && Marks(a.pc)
    requires SawReady(a.pc) ==> WasReady(r.history, r.jobs[a.job].material)
    ensures Keeps(r, MarkOutcome(r, a, now), n)
  {
    match a.pc {
      case ToSucceed => FinishOk(r, a.job, now, n);
      case ToFail(code) => MarkFailedOk(r, a.owner, a.job, code, Some(a.number), now, n);
      case ToCancel => CancelOneOk(r, a.job, now, n);
    }
  }

  lemma ApplyMarkOk(r: Rows, a: Attempt, now: Time, n: LeaseId)
    requires RowsOk(r, n)
    requires a.job in r.jobs ==> r.jobs[a.job].material == a.material
    requires SawReady(a.pc) ==> WasReady(r.history, a.material)
    ensures Keeps(r, ApplyMark(r, a, now), n)
  {
    if LostJob(r, a) || !Marks(a.pc) {
      QuietRefl(r, n);
    } else {
      var s := DropChunks(r, a.material, a.dropped);
      DropChunksOk(r, a.material, a.dropped, n);
      OutcomeOk(s, a, now, n);
      QuietTrans(r, s, MarkOutcome(s, a, now), n);
    }
  }

  /** What a worker does to its material row and chunk rows on the way. */
  function ChunkEffect(r: Rows, l: LeaseId, a: Attempt, step: WorkerStep): Rows {
    match step
    case AddIntent(ids) => PersistIntent(r, a.material, ids)
    case RaiseError => FailProcessing(r, a.material)
    case SettleIntent(_) => FailIntent(r, a.material, l)
    case EraseIntent => DropIntent(r, a.material, a.chunks)
    case _ => r
  }

  predicate TouchesJob(step: WorkerStep) {
    step.WriteLease? || step.SetReady? || step.Report? || step.Mark?
  }

  lemma ChunkEffectIsIt(w: World, l: LeaseId, a: Attempt, step: WorkerStep)
    requires !TouchesJob(step)
    ensures var s := WorkerNext(w, l, a, step).0; s == w.rows || s == ChunkEffect(w.rows, l, a, step)
  {
  }

  lemma ChunkEffectOk(r: Rows, n: LeaseId, l: LeaseId, a: Attempt, step: WorkerStep)
    requires RowsOk(r, n)
    ensures Keeps(r, ChunkEffect(r, l, a, step), n)
  {
    if step.AddIntent? {
      PersistIntentOk(r, n, a.material, step.ids);
    } else if step.RaiseError? {
      FailProcessingOk(r, n, a.material);
    } else if step.SettleIntent? {
      FailIntentOk(r, n, a.material, l);
    } else if step.EraseIntent? {
      DropIntentOk(r, n, a.material, a.chunks);
    } else {
      QuietRefl(r, n);
    }
  }

  /** The row part of a worker step other than the lease write and the READY update. */
  lemma WorkerRowsOk(w: World, l: LeaseId, a: Attempt, step: WorkerStep)
    requires RowsOk(w.rows, w.nextLease) && AttemptOk(w.rows, w.nextLease, l, a)
    requires !step.WriteLease? && !step.SetReady?
    ensures Keeps(w.rows, WorkerNext(w, l, a, step).0, w.nextLease)
  {
    var r, n := w.rows, w.nextLease;
    QuietRefl(r, n);
    if step.Report? {
      UpdateProgressOk(r, a.owner, a.job, step.percent, Some(a.number), step.at, n);
    } else if step.Mark? {
      ApplyMarkOk(r, a, step.at, n);
    } else {
      ChunkEffectIsIt(w, l, a, step);
      ChunkEffectOk(r, n, l, a, step);
    }
  }

  /** A worker changes only its own progress, never back before the lease write. */
  lemma WorkerMoves(w: World, l: LeaseId, a: Attempt, step: WorkerStep)
    requires SawReady(a.pc) ==> WasReady(w.rows.history, a.material)
    requires forall m | m in w.rows.materials && w.rows.materials[m].processing == Ready :: WasReady(w.rows.history, m)
    ensures var b := WorkerNext(w, l, a, step).1;
            && b == a.(pc := b.pc, chunks := b.chunks, dropped := b.dropped)
            && (BeforeLease(b.pc) ==> BeforeLease(a.pc))
            && (SawReady(b.pc) ==> WasReady(w.rows.history, a.material))
  {
  }

  /** The step puts this attempt's lease on its row, or makes the material ready. */
  predicate UsesLease(w: World, l: LeaseId, a: Attempt, step: WorkerStep) {
    || (step.WriteLease? && a.pc == Downloaded && Unlocked(w, a.owner))
    || (step.SetReady? && a.pc == Finishing && HoldsLease(w.rows, a.material, l))
  }

  lemma UnusedLease(w: World, l: LeaseId, a: Attempt, step: WorkerStep)
    requires RowsOk(w.rows, w.nextLease) && AttemptOk(w.rows, w.nextLease, l, a) && !UsesLease(w, l, a, step)
    ensures Keeps(w.rows, WorkerNext(w, l, a, step).0, w.nextLease)
  {
    if step.WriteLease? || step.SetReady? {
      QuietRefl(w.rows, w.nextLease);
    } else {
      WorkerRowsOk(w, l, a, step);
    }
  }

  lemma QuietWorkerKeeps(w: World, l: LeaseId, step: WorkerStep)
    requires WorkersOk(w) && l in w.attempts && !UsesLease(w, l, w.attempts[l], step)
    ensures WorkersOk(Next(w, Worker(l, step)))
  {
    var r, n, a := w.rows, w.nextLease, w.attempts[l];
    var (s, b) := WorkerNext(w, l, a, step);
    assert AttemptOk(r, n, l, a);
    forall m | m in r.materials && r.materials[m].processing == Ready ensures WasReady(r.history, m) {
      assert MaterialOk(r.history, m, r.materials[m]);
    }
    WorkerMoves(w, l, a, step);
    UnusedLease(w, l, a, step);
    ExtendsKeepsFacts(r.history, s.history);
    QuietMove(w, s, l, b);
  }

  /** The two steps that use the lease. */
  lemma LeasingStep(w: World, l: LeaseId, a: Attempt, step: WorkerStep)
    requires l in w.attempts && a == w.attempts[l] && UsesLease(w, l, a, step)
    ensures step.WriteLease? ==>
              Next(w, Worker(l, step))
              == w.(rows := TakeLease(w.rows, a.owner, a.job, a.number, a.material, l, step.at),
                    attempts := w.attempts[l := a.(pc := Parsing)])
    ensures step.SetReady? ==>
              var pc := if step.acknowledged then Returned else Unwind(a, FailAfter).pc;
              !BeforeLease(pc) && !SawReady(pc)
              && Next(w, Worker(l, step)) == w.(rows := MarkReady(w.rows, a.material, l, a.job),
                                                attempts := w.attempts[l := a.(pc := pc)])
  {
  }

  lemma LeasingWorkerKeeps(w: World, l: LeaseId, a: Attempt, step: WorkerStep)
    requires WorkersOk(w) && l in w.attempts && a == w.attempts[l] && UsesLease(w, l, a, step)
    ensures WorkersOk(Next(w, Worker(l, step)))
  {
    LeasingStep(w, l, a, step);
    if step.WriteLease? {
      WriteLeaseOk(w, l, step.at);
    } else {
      SetReadyOk(w, l, if step.acknowledged then Returned else Unwind(a, FailAfter).pc);
    }
  }

  lemma WorkerKeeps(w: World, l: LeaseId, step: WorkerStep)
    requires WorkersOk(w)
    ensures WorkersOk(Next(w, Worker(l, step)))
  {
    if l in w.attempts {
      if UsesLease(w, l, w.attempts[l], step) {
        LeasingWorkerKeeps(w, l, w.attempts[l], step);
      } else {
        QuietWorkerKeeps(w, l, step);
      }
    }
  }

  lemma QuietIsLegal(w: World, e: Event, s: Rows)
    requires Quiet(w.rows, s)
    ensures Legal(w, e, s)
  {
  }

  /** A quiet transaction that also puts a lease no row has had on a row. */
  lemma NewLeaseLegal(w: World, e: Event, p: Rows, m: MaterialId, mat: Material, l: LeaseId)
    requires Quiet(w.rows, p) && m in p.materials && m in w.rows.materials
    requires mat.lease == Some(l) && mat.processing == Processing && !WasWritten(w.rows.history, l)
    ensures Legal(w, e, Log(PutMaterial(p, m, mat), Wrote(m, l)))
  {
    var h := Then(p.history, Wrote(m, l));
    assert forall j :: Retries(h, j) == Retries(p.history, j);
  }

  lemma WriteLeaseLegal(w: World, a: Attempt, e: Event, l: LeaseId, now: Time)
    requires RowsOk(w.rows, w.nextLease) && !WasWritten(w.rows.history, l)
    ensures Legal(w, e, TakeLease(w.rows, a.owner, a.job, a.number, a.material, l, now))
  {
    var r := w.rows;
    var p := UpdateProgress(r, a.owner, a.job, 25, Some(a.number), now);
    UpdateProgressOk(r, a.owner, a.job, 25, Some(a.number), now, w.nextLease);
    if IsCurrentAttempt(r, a.owner, a.job, Some(a.number)) && a.material in r.materials {
      NewLeaseLegal(w, e, p, a.material, Leased(r.materials[a.material], l, now + LEASE_DURATION), l);
    } else {
      QuietRefl(r, w.nextLease);
      QuietIsLegal(w, e, r);
    }
  }

  lemma SetReadyLegal(w: World, e: Event)
    requires WorkersOk(w) && SetsReady(w, e)
    ensures var a := w.attempts[e.lease]; Legal(w, e, MarkReady(w.rows, a.material, e.lease, a.job))
  {
    QuietRefl(w.rows, w.nextLease);
  }

  lemma MoreLeases(r: Rows, n: LeaseId)
    requires RowsOk(r, n)
    ensures RowsOk(r, n + 1)
  {
    BelowGrows(r.history, r.nextJob, n, r.nextJob, n + 1);
  }

  lemma NewAttempt(w: World, a: Attempt)
    requires WorkersOk(w) && a.pc == Fetched && a.job in w.rows.jobs
    requires OwnsJob(w.rows, a.owner, a.job) && w.rows.jobs[a.job].material == a.material
    requires w.rows.jobs[a.job].series == a.series && w.rows.jobs[a.job].attemptCount == a.number
    requires WasClaimed(w.rows.history, a.job, a.series, a.number)
    ensures WorkersOk(w.(attempts := w.attempts[w.nextLease := a], nextLease := w.nextLease + 1))
  {
    var r, n := w.rows, w.nextLease;
    FreshLease(r.history, r.nextJob, n, n);
    MoreLeases(r, n);
    assert OwnsMaterial(r, r.jobs[a.job].owner, r.jobs[a.job].material);
    forall m | m in r.materials && r.materials[m].lease.Some? ensures r.materials[m].lease != Some(n) {
      LastWroteWasWritten(r.history, m);
      assert MaterialOk(r.history, m, r.materials[m]);
    }
  }

  /** What a successful claim leaves on the row is what the attempt remembers. */
  lemma ClaimHandsOut(r: Rows, u: UserId, j: JobId, now: Time)
    requires ClaimJob(r, u, j, now).1.Some?
    ensures var (s, number) := ClaimJob(r, u, j, now);
            && OwnsJob(s, u, j) && s.jobs[j].attemptCount == number.value
            && WasClaimed(s.history, j, s.jobs[j].series, number.value)
  {
  }

  lemma ClaimedKeeps(w: World, u: UserId, j: JobId, now: Time)
    requires WorkersOk(w) && ClaimJob(w.rows, u, j, now).1.Some?
    requires WorkersOk(WithRows(w, ClaimJob(w.rows, u, j, now).0))
    ensures var (s, number) := ClaimJob(w.rows, u, j, now);
            var a := Attempt(u, j, s.jobs[j].material, s.jobs[j].series, number.value, Fetched, {}, {});
            WorkersOk(w.(rows := s, attempts := w.attempts[w.nextLease := a], nextLease := w.nextLease + 1))
  {
    var (s, number) := ClaimJob(w.rows, u, j, now);
    ClaimHandsOut(w.rows, u, j, now);
    NewAttempt(WithRows(w, s), Attempt(u, j, s.jobs[j].material, s.jobs[j].series, number.value, Fetched, {}, {}));
  }

  /** The claim as a step: a successful one adds the attempt it hands out. */
  lemma ClaimStep(w: World, u: UserId, j: JobId, now: Time, s: Rows, number: Option<nat>)
    requires Unlocked(w, u) && (s, number) == ClaimJob(w.rows, u, j, now)
    ensures number.None? ==> ServiceNext(w, u, Claim(j, now)) == WithRows(w, s)
    ensures number.Some? ==>
              var a := Attempt(u, j, s.jobs[j].material, s.jobs[j].series, number.value, Fetched, {}, {});
              ServiceNext(w, u, Claim(j, now))
              == w.(rows := s, attempts := w.attempts[w.nextLease := a], nextLease := w.nextLease + 1)
  {
  }

  lemma ClaimKeeps(w: World, u: UserId, j: JobId, now: Time)
    requires WorkersOk(w)
    ensures WorkersOk(ServiceNext(w, u, Claim(j, now)))
  {
    if Unlocked(w, u) {
      var (s, number) := ClaimJob(w.rows, u, j, now);
      ClaimJobOk(w.rows, u, j, now, w.nextLease);
      QuietKeeps(w, s);
      ClaimStep(w, u, j, now, s, number);
      if number.Some? {
        ClaimedKeeps(w, u, j, now);
      }
    }
  }

  /** A material row takes a lease that no attempt has. */
  lemma NewLeaseAttempts(w: World, v: World, m: MaterialId, mat: Material)
    requires WorkersOk(w) && m in w.rows.materials
    requires mat.owner == w.rows.materials[m].owner && mat.lease == Some(w.nextLease)
    requires v.rows == Log(PutMaterial(w.rows, m, mat), Wrote(m, w.nextLease))
    requires v.attempts == w.attempts && v.nextLease == w.nextLease + 1
    requires v.reprocesses.Keys == w.reprocesses.Keys + {w.nextLease}
    ensures AttemptsOk(v)
  {
    forall l | l in w.attempts ensures l < w.nextLease && AttemptOk(v.rows, v.nextLease, l, w.attempts[l]) {
      assert AttemptOk(w.rows, w.nextLease, l, w.attempts[l]);
      LeaseKeepsOthers(w.rows, m, w.nextLease, mat, w.nextLease, l, w.attempts[l]);
    }
  }

  lemma NewLeaseRows(r: Rows, m: MaterialId, mat: Material, n: LeaseId)
    requires RowsOk(r, n) && m in r.materials
    requires mat.key == r.materials[m].key && mat.owner == r.materials[m].owner
    requires mat.processing == Processing && mat.lease == Some(n)
    ensures RowsOk(Log(PutMaterial(r, m, mat), Wrote(m, n)), n + 1)
  {
    FreshLease(r.history, r.nextJob, n, n);
    MoreLeases(r, n);
    LeaseRowsOk(r, m, n, mat, n + 1);
  }

  /** A quiet transaction that ends by handing a row the next lease. */
  lemma HandOver(w: World, c: Rows, m: MaterialId, mat: Material, p: Reprocess)
    requires WorkersOk(w) && Keeps(w.rows, c, w.nextLease) && m in c.materials
    requires mat.key == c.materials[m].key && mat.owner == c.materials[m].owner
    requires mat.processing == Processing && mat.lease == Some(w.nextLease)
    ensures WorkersOk(w.(rows := Log(PutMaterial(c, m, mat), Wrote(m, w.nextLease)),
                         reprocesses := w.reprocesses[w.nextLease := p],
                         nextLease := w.nextLease + 1))
  {
    var n := w.nextLease;
    QuietKeeps(w, c);
    NewLeaseRows(c, m, mat, n);
    NewLeaseAttempts(WithRows(w, c), w.(rows := Log(PutMaterial(c, m, mat), Wrote(m, n)),
                                        reprocesses := w.reprocesses[n := p], nextLease := n + 1), m, mat);
  }

  /** Clearing a ready material for reprocessing hands the row a lease no attempt has. */
  lemma ClearingKeeps(w: World, u: UserId, m: MaterialId, now: Time)
    requires WorkersOk(w) && BeginReprocess(w.rows, u, m, w.nextLease, now).Clearing?
    ensures var o := BeginReprocess(w.rows, u, m, w.nextLease, now);
            WorkersOk(w.(rows := o.rows,
                         reprocesses := w.reprocesses[w.nextLease := Reprocess(u, m, o.chunks)],
                         nextLease := w.nextLease + 1))
  {
    var o := BeginReprocess(w.rows, u, m, w.nextLease, now);
    ClearingIs(w.rows, u, m, w.nextLease, now);
    CancelJobsForMaterialOk(w.rows, u, m, now, w.nextLease);
    HandOver(w, CancelJobsForMaterial(w.rows, u, m, now), m, o.rows.materials[m], Reprocess(u, m, o.chunks));
  }

  lemma ClearingLegal(w: World, u: UserId, m: MaterialId, now: Time)
    requires WorkersOk(w) && BeginReprocess(w.rows, u, m, w.nextLease, now).Clearing?
    ensures Legal(w, Service(u, StartReprocess(m, now)), BeginReprocess(w.rows, u, m, w.nextLease, now).rows)
  {
    var c := CancelJobsForMaterial(w.rows, u, m, now);
    CancelJobsForMaterialOk(w.rows, u, m, now, w.nextLease);
    FreshLease(w.rows.history, w.rows.nextJob, w.nextLease, w.nextLease);
    var s := BeginReprocess(w.rows, u, m, w.nextLease, now).rows;
    NewLeaseLegal(w, Service(u, StartReprocess(m, now)), c, m, s.materials[m], w.nextLease);
  }

  lemma LeasingWorkerLegal(w: World, l: LeaseId, a: Attempt, step: WorkerStep)
    requires WorkersOk(w) && l in w.attempts && a == w.attempts[l] && UsesLease(w, l, a, step)
    ensures Legal(w, Worker(l, step), Next(w, Worker(l, step)).rows)
  {
    assert AttemptOk(w.rows, w.nextLease, l, a);
    LeasingStep(w, l, a, step);
    if step.WriteLease? {
      WriteLeaseLegal(w, a, Worker(l, step), l, step.at);
    } else {
      SetReadyLegal(w, Worker(l, step));
    }
  }

  lemma QuietWorkerLegal(w: World, l: LeaseId, a: Attempt, step: WorkerStep)
    requires WorkersOk(w) && l in w.attempts && a == w.attempts[l] && !UsesLease(w, l, a, step)
    ensures Legal(w, Worker(l, step), Next(w, Worker(l, step)).rows)
  {
    UnusedLease(w, l, a, step);
    QuietIsLegal(w, Worker(l, step), WorkerNext(w, l, a, step).0);
  }

  lemma WorkerLegal(w: World, l: LeaseId, step: WorkerStep)
    requires WorkersOk(w)
    ensures Legal(w, Worker(l, step), Next(w, Worker(l, step)).rows)
  {
    if l !in w.attempts {
      QuietRefl(w.rows, w.nextLease);
      QuietIsLegal(w, Worker(l, step), w.rows);
    } else if UsesLease(w, l, w.attempts[l], step) {
      LeasingWorkerLegal(w, l, w.attempts[l], step);
    } else {
      QuietWorkerLegal(w, l, w.attempts[l], step);
    }
  }

  /** What a service call other than a claim or a clearing reprocess does to the rows. */
  function CallEffect(w: World, u: UserId, call: ServiceStep): Rows {
    var r := w.rows;
    match call
    case Claim(j, now) => ClaimJob(r, u, j, now).0
    case CancelJob(m, now) => CancelMaterialJob(r, u, m, now)
    case Retry(j, now) => RetryJob(r, u, j, now)
    case Recover(j, now, olderThan) => RecoverJob(r, u, j, now, olderThan)
    case CleanIndex(m) => CleanupIndex(r, u, m)
    case CompleteCleanup(j, immediate, now) => FinishCleanup(r, u, j, immediate, now)
    case StartReprocess(m, now) =>
      (match BeginReprocess(r, u, m, w.nextLease, now)
       case Requeued(s) => s
       case _ => r)
    case CompleteReprocess(l, now) =>
      if l !in w.reprocesses then r
      else FinishReprocess(r, u, w.reprocesses[l].material, l, w.reprocesses[l].chunks, now).GetOr(r)
    case SetDisabled(disabled) =>
      if u !in r.users then r else r.(users := r.users[u := r.users[u].(disabled := disabled)])
  }

  predicate Clears(w: World, u: UserId, call: ServiceStep) {
    call.StartReprocess? && BeginReprocess(w.rows, u, call.material, w.nextLease, call.at).Clearing?
  }

  lemma CallEffectIsIt(w: World, u: UserId, call: ServiceStep)
    requires !Clears(w, u, call)
    ensures var s := ServiceNext(w, u, call).rows; s == w.rows || s == CallEffect(w, u, call)
    ensures !call.Claim? ==> ServiceNext(w, u, call) == WithRows(w, ServiceNext(w, u, call).rows)
  {
  }

  lemma JobCallOk(w: World, u: UserId, call: ServiceStep)
    requires RowsOk(w.rows, w.nextLease)
    requires call.Claim? || call.CancelJob? || call.Retry? || call.Recover? || call.CompleteCleanup?
    ensures Keeps(w.rows, CallEffect(w, u, call), w.nextLease)
  {
    var r, n := w.rows, w.nextLease;
    match call {
      case Claim(j, now) => ClaimJobOk(r, u, j, now, n);
      case CancelJob(m, now) => CancelMaterialJobOk(r, u, m, now, n);
      case Retry(j, now) => RetryJobOk(r, u, j, now, n);
      case Recover(j, now, olderThan) => RecoverJobOk(r, u, j, now, olderThan, n);
      case CompleteCleanup(j, immediate, now) => FinishCleanupOk(r, u, j, immediate, now, n);
    }
  }

  lemma CallEffectOk(w: World, u: UserId, call: ServiceStep)
    requires RowsOk(w.rows, w.nextLease)
    ensures Keeps(w.rows, CallEffect(w, u, call), w.nextLease)
  {
    var r, n := w.rows, w.nextLease;
    match call {
      case CleanIndex(m) => CleanupIndexOk(r, u, m, n);
      case StartReprocess(m, now) =>
        QuietRefl(r, n);
        if BeginReprocess(r, u, m, n, now).Requeued? {
          RequeuedOk(r, u, m, n, now, n);
        }
      case CompleteReprocess(l, now) =>
        QuietRefl(r, n);
        if l in w.reprocesses {
          FinishReprocessOk(r, u, w.reprocesses[l].material, l, w.reprocesses[l].chunks, now, n);
        }
      case SetDisabled(disabled) =>
        UsersOk(r, CallEffect(w, u, call).users, n);
      case _ => JobCallOk(w, u, call);
    }
  }

  lemma QuietCallOk(w: World, u: UserId, call: ServiceStep)
    requires RowsOk(w.rows, w.nextLease) && !Clears(w, u, call)
    ensures Keeps(w.rows, ServiceNext(w, u, call).rows, w.nextLease)
  {
    QuietRefl(w.rows, w.nextLease);
    CallEffectIsIt(w, u, call);
    CallEffectOk(w, u, call);
  }

  lemma QuietServiceKeeps(w: World, u: UserId, call: ServiceStep)
    requires WorkersOk(w) && !Clears(w, u, call) && !call.Claim?
    ensures WorkersOk(ServiceNext(w, u, call))
  {
    CallEffectIsIt(w, u, call);
    QuietCallOk(w, u, call);
    QuietKeeps(w, ServiceNext(w, u, call).rows);
  }

  lemma ClearingServiceKeeps(w: World, u: UserId, call: ServiceStep)
    requires WorkersOk(w) && Clears(w, u, call)
    ensures WorkersOk(ServiceNext(w, u, call))
  {
    if Unlocked(w, u) {
      ClearingKeeps(w, u, call.material, call.at);
    }
  }

  lemma ServiceKeeps(w: World, u: UserId, call: ServiceStep)
    requires WorkersOk(w)
    ensures WorkersOk(Next(w, Service(u, call)))
  {
    if Clears(w, u, call) {
      ClearingServiceKeeps(w, u, call);
    } else if call.Claim? {
      ClaimKeeps(w, u, call.job, call.at);
    } else {
      QuietServiceKeeps(w, u, call);
    }
  }

  lemma ServiceLegal(w: World, u: UserId, call: ServiceStep)
    requires WorkersOk(w)
    ensures Legal(w, Service(u, call), Next(w, Service(u, call)).rows)
  {
    if Clears(w, u, call) {
      QuietRefl(w.rows, w.nextLease);
      QuietIsLegal(w, Service(u, call), w.rows);
      ClearingLegal(w, u, call.material, call.at);
    } else {
      QuietCallOk(w, u, call);
      QuietIsLegal(w, Service(u, call), ServiceNext(w, u, call).rows);
    }
  }

  /** Upload and storage steps touch no attempt, so their row part decides. */
  lemma RowsDecide(w: World, v: World)
    requires WorkersOk(w) && Keeps(w.rows, v.rows, w.nextLease)
    requires v.attempts == w.attempts && v.reprocesses == w.reprocesses && v.nextLease == w.nextLease
    ensures WorkersOk(v)
  {
    QuietKeeps(w, v.rows);
  }

  /** What an upload step may do to the rows. */
  function UploadEffect(r: Rows, u: UserId, c: CourseId, m: MaterialId, step: UploadStep): Rows {
    match step
    case CommitMetadata(size, hash) => CommitUpload(r, u, c, m, size, hash).GetOr(r)
    case PublishMaterial(now, _) => Publish(r, u, m, now).GetOr(r)
    case KeepUncertain => KeepReservation(r, m, true)
    case KeepStored => KeepReservation(r, m, false)
    case RemoveRow => DiscardReservation(r, m)
    case MarkForCompensation => Compensate(r, u, m).GetOr(r)
    case _ => r
  }

  predicate ChecksMetadata(step: UploadStep) {
    step.CommitMetadata? || step.PublishMaterial? || step.MarkForCompensation?
  }

  /** Attempts and leases are left alone. */
  predicate SameWorkers(w: World, v: World) {
    v.attempts == w.attempts && v.reprocesses == w.reprocesses && v.nextLease == w.nextLease
  }

  lemma PublishFrame(w: World, m: MaterialId, step: UploadStep)
    requires m in w.uploads && step.PublishMaterial?
    ensures SameWorkers(w, UploadNext(w, m, step))
  {
  }

  lemma CheckedFrame(w: World, m: MaterialId, step: UploadStep)
    requires m in w.uploads && ChecksMetadata(step)
    ensures SameWorkers(w, UploadNext(w, m, step))
  {
    if step.PublishMaterial? {
      PublishFrame(w, m, step);
    }
  }

  lemma DiscardFrame(w: World, m: MaterialId, step: UploadStep)
    requires m in w.uploads && (step.KeepUncertain? || step.KeepStored? || step.RemoveRow? || step.RemoveStored?)
    ensures SameWorkers(w, UploadNext(w, m, step))
  {
  }

  lemma UploadFrame(w: World, m: MaterialId, step: UploadStep)
    requires m in w.uploads
    ensures SameWorkers(w, UploadNext(w, m, step))
  {
    if ChecksMetadata(step) {
      CheckedFrame(w, m, step);
    } else if step.KeepUncertain? || step.KeepStored? || step.RemoveRow? || step.RemoveStored? {
      DiscardFrame(w, m, step);
    }
  }

  lemma PublishEffectIsIt(w: World, m: MaterialId, step: UploadStep)
    requires m in w.uploads && step.PublishMaterial?
    ensures var s, up := UploadNext(w, m, step).rows, w.uploads[m];
            s == w.rows || s == UploadEffect(w.rows, up.owner, up.course, m, step)
  {
  }

  lemma CheckedEffectIsIt(w: World, m: MaterialId, step: UploadStep)
    requires m in w.uploads && ChecksMetadata(step)
    ensures var s, up := UploadNext(w, m, step).rows, w.uploads[m];
            s == w.rows || s == UploadEffect(w.rows, up.owner, up.course, m, step)
  {
    if step.PublishMaterial? {
      PublishEffectIsIt(w, m, step);
    }
  }

  lemma UploadEffectIsIt(w: World, m: MaterialId, step: UploadStep)
    requires m in w.uploads
    ensures var s, up := UploadNext(w, m, step).rows, w.uploads[m];
            s == w.rows || s == UploadEffect(w.rows, up.owner, up.course, m, step)
  {
    if ChecksMetadata(step) {
      CheckedEffectIsIt(w, m, step);
    }
  }

  lemma UploadEffectOk(r: Rows, u: UserId, c: CourseId, m: MaterialId, step: UploadStep, n: LeaseId)
    requires RowsOk(r, n)
    ensures Keeps(r, UploadEffect(r, u, c, m, step), n)
  {
    if step.PublishMaterial? {
      PublishOk(r, u, m, step.at, n);
    } else if step.CommitMetadata? {
      CommitUploadOk(r, u, c, m, step.size, step.hash, n);
    } else {
      QuietRefl(r, n);
      DiscardsOk(r, m, true, n);
      DiscardsOk(r, m, false, n);
    }
  }

  lemma UploadRowsOk(w: World, m: MaterialId, step: UploadStep)
    requires RowsOk(w.rows, w.nextLease) && m in w.uploads
    ensures Keeps(w.rows, UploadNext(w, m, step).rows, w.nextLease)
  {
    var up := w.uploads[m];
    QuietRefl(w.rows, w.nextLease);
    UploadEffectIsIt(w, m, step);
    UploadEffectOk(w.rows, up.owner, up.course, m, step, w.nextLease);
  }

  lemma UploadKeeps(w: World, m: MaterialId, step: UploadStep)
    requires WorkersOk(w)
    ensures WorkersOk(Next(w, Uploading(m, step)))
    ensures Legal(w, Uploading(m, step), Next(w, Uploading(m, step)).rows)
  {
    if m in w.uploads {
      UploadFrame(w, m, step);
      UploadRowsOk(w, m, step);
      RowsDecide(w, UploadNext(w, m, step));
      QuietIsLegal(w, Uploading(m, step), UploadNext(w, m, step).rows);
    } else {
      QuietRefl(w.rows, w.nextLease);
      QuietIsLegal(w, Uploading(m, step), w.rows);
    }
  }

  lemma CleaningRowsOk(w: World, c: nat, now: Time)
    requires RowsOk(w.rows, w.nextLease)
    ensures var s := StorageNext(w, FinishCleaning(c, now)).rows; Keeps(w.rows, s, w.nextLease)
  {
    var r, n := w.rows, w.nextLease;
    QuietRefl(r, n);
    if c in w.cleaners && w.cleaners[c].objectGone {
      var cl := w.cleaners[c];
      var m := cl.key.material;
      match cl.kind {
        case OwnerDelete => FinishDeleteOk(r, cl.owner, m, n);
        case Recovery => FinishRecoveryOk(r, m, now, n);
        case Compensation => RemoveMaterialsOk(r, {m}, n);
      }
    }
  }

  lemma LockedRowsOk(w: World, step: StorageStep)
    requires RowsOk(w.rows, w.nextLease)
    requires step.CommitCourse? || step.CommitAccount? || step.FailAccount?
    ensures Keeps(w.rows, StorageNext(w, step).rows, w.nextLease)
  {
    var r, n := w.rows, w.nextLease;
    QuietRefl(r, n);
    match step {
      case CommitCourse(u) =>
        if u in w.locks && w.locks[u].CourseHolds? {
          RemoveMaterialsOk(r, CourseMaterials(r, u, w.locks[u].course), n);
        }
      case CommitAccount(u) => RemoveAccountOk(r, u, n);
      case FailAccount(u, now) => FenceAccountOk(r, u, now, n);
    }
  }

  lemma DeleteRowsOk(w: World, u: UserId, m: MaterialId, now: Time)
    requires RowsOk(w.rows, w.nextLease)
    ensures Keeps(w.rows, StorageNext(w, DeleteMaterial(u, m, now)).rows, w.nextLease)
  {
    QuietRefl(w.rows, w.nextLease);
    if BeginDelete(w.rows, u, m, now).Some? {
      BeginDeleteOk(w.rows, u, m, now, w.nextLease);
    }
  }

  lemma RecoverRowsOk(w: World, m: MaterialId, now: Time)
    requires RowsOk(w.rows, w.nextLease)
    ensures Keeps(w.rows, StorageNext(w, RecoverMaterial(m, now)).rows, w.nextLease)
  {
    QuietRefl(w.rows, w.nextLease);
    RecoverStorageOk(w.rows, m, now, w.nextLease);
  }

  lemma MarkCourseRowsOk(w: World, u: UserId, c: CourseId, now: Time)
    requires RowsOk(w.rows, w.nextLease)
    ensures Keeps(w.rows, StorageNext(w, MarkCourseDeleting(u, c, now)).rows, w.nextLease)
  {
    QuietRefl(w.rows, w.nextLease);
    if MarkCourse(w.rows, u, c, now).Some? {
      MarkCourseOk(w.rows, u, c, now, w.nextLease);
    }
  }

  lemma ReserveRowsOk(w: World, u: UserId, c: CourseId, objectId: nat)
    requires RowsOk(w.rows, w.nextLease)
    ensures Keeps(w.rows, StorageNext(w, ReserveUpload(u, c, objectId)).rows, w.nextLease)
  {
    QuietRefl(w.rows, w.nextLease);
    if Reserve(w.rows, u, c, objectId).Some? {
      ReserveOk(w.rows, u, c, objectId, w.nextLease);
    }
  }

  lemma StorageRowsOk(w: World, step: StorageStep)
    requires RowsOk(w.rows, w.nextLease)
    ensures Keeps(w.rows, StorageNext(w, step).rows, w.nextLease)
  {
    match step {
      case FinishCleaning(c, now) => CleaningRowsOk(w, c, now);
      case CommitCourse(_) => LockedRowsOk(w, step);
      case CommitAccount(_) => LockedRowsOk(w, step);
      case FailAccount(_, _) => LockedRowsOk(w, step);
      case ReserveUpload(u, c, objectId) => ReserveRowsOk(w, u, c, objectId);
      case DeleteMaterial(u, m, now) => DeleteRowsOk(w, u, m, now);
      case RecoverMaterial(m, now) => RecoverRowsOk(w, m, now);
      case MarkCourseDeleting(u, c, now) => MarkCourseRowsOk(w, u, c, now);
      case _ => QuietRefl(w.rows, w.nextLease);
    }
  }

  predicate MarksRows(step: StorageStep) {
    step.ReserveUpload? || step.DeleteMaterial? || step.RecoverMaterial? || step.MarkCourseDeleting?
  }

  lemma MarkingFrame(w: World, step: StorageStep)
    requires MarksRows(step)
    ensures SameWorkers(w, StorageNext(w, step))
  {
  }

  lemma CleaningFrame(w: World, step: StorageStep)
    requires step.FinishCleaning?
    ensures SameWorkers(w, StorageNext(w, step))
  {
  }

  lemma StorageFrame(w: World, step: StorageStep)
    ensures SameWorkers(w, StorageNext(w, step))
  {
    if MarksRows(step) {
      MarkingFrame(w, step);
    } else if step.FinishCleaning? {
      CleaningFrame(w, step);
    }
  }

  lemma StorageKeeps(w: World, step: StorageStep)
    requires WorkersOk(w)
    ensures WorkersOk(Next(w, Storage(step)))
    ensures Legal(w, Storage(step), Next(w, Storage(step)).rows)
  {
    StorageFrame(w, step);
    StorageRowsOk(w, step);
    RowsDecide(w, StorageNext(w, step));
  }

  lemma NextKeeps(w: World, e: Event)
    requires WorkersOk(w)
    ensures WorkersOk(Next(w, e)) && Legal(w, e, Next(w, e).rows)
  {
    match e {
      case Worker(l, step) => WorkerKeeps(w, l, step); WorkerLegal(w, l, step);
      case Service(u, call) => ServiceKeeps(w, u, call); ServiceLegal(w, u, call);
      case Uploading(m, step) => UploadKeeps(w, m, step);
      case Storage(step) => StorageKeeps(w, step);
    }
  }

  lemma {:induction false} RunKeeps(w: World, events: seq<Event>)
    requires WorkersOk(w)
    ensures WorkersOk(Run(w, events))
    decreases |events|
  {
    if events != [] {
      NextKeeps(w, events[0]);
      RunKeeps(Next(w, events[0]), events[1..]);
    }
  }

  /** The main theorem: whatever happens, in whatever order, the history is sound. */
  lemma EveryRunIsSound(users: map<UserId, User>, events: seq<Event>)
    ensures Sound(Run(Init(users), events).rows.history)
  {
    RunKeeps(Init(users), events);
  }
}
