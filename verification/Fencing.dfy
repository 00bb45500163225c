/** The lease, cancellation, attempt and outcome rules as statements about whole runs. */
module Fencing {
  import opened Options
  import opened Tables
  import opened Histories
  import opened Jobs
  import opened Materials
  import opened RowInvariants
  import opened MaterialRows
  import opened Lifecycle
  import opened Leases

  /** Every state that some run of the pipeline reaches. */
  ghost predicate Reachable(w: World) {
    exists users, events :: w == Run(Init(users), events)
  }

  lemma ReachableIsOk(w: World)
    requires Reachable(w)
    ensures WorkersOk(w)
  {
    var users, events :| w == Run(Init(users), events);
    RunKeeps(Init(users), events);
  }

  /**
   A material becomes ready in one step only: the READY update of the attempt whose
   lease is on the row, which is the lease last written there, on an available object.
   */
  lemma ReadyOnlyByLeaseHolder(w: World, e: Event, m: MaterialId)
    requires Reachable(w)
    requires m in w.rows.materials && m in Next(w, e).rows.materials
    requires w.rows.materials[m].processing != Ready && Next(w, e).rows.materials[m].processing == Ready
    ensures e.Worker? && e.work.SetReady? && e.lease in w.attempts && w.attempts[e.lease].material == m
    ensures w.rows.materials[m].lease == Some(e.lease) && w.rows.materials[m].storage == Available
    ensures LastWrote(w.rows.history, m) == Some(e.lease) && !WasReadied(w.rows.history, e.lease)
  {
    ReachableIsOk(w);
    NextKeeps(w, e);
    assert MaterialOk(w.rows.history, m, w.rows.materials[m]);
  }

  /** The lease was put on a row and is on none now. */
  ghost predicate LeaseLost(w: World, l: LeaseId) {
    && WasWritten(w.rows.history, l)
    && forall m | m in w.rows.materials :: w.rows.materials[m].lease != Some(l)
  }

  /** Once a lease is overwritten or cleared, nothing that happens later lets its attempt make the material ready. */
  lemma {:induction false} LostLeaseNeverReadies(w: World, l: LeaseId, events: seq<Event>)
    requires WorkersOk(w) && LeaseLost(w, l)
    ensures WasReadied(Run(w, events).rows.history, l) ==> WasReadied(w.rows.history, l)
    ensures LeaseLost(Run(w, events), l)
    decreases |events|
  {
    if events != [] {
      var v := Next(w, events[0]);
      NextKeeps(w, events[0]);
      ExtendsKeepsFacts(w.rows.history, v.rows.history);
      LostLeaseNeverReadies(v, l, events[1..]);
    }
  }

  lemma WorkerFrame(w: World, l: LeaseId, a: Attempt, step: WorkerStep)
    ensures var b := WorkerNext(w, l, a, step).1;
            b == a.(pc := b.pc, chunks := b.chunks, dropped := b.dropped)
  {
  }

  lemma ServiceFrame(w: World, u: UserId, call: ServiceStep, l: LeaseId)
    requires l in w.attempts && l != w.nextLease
    ensures l in ServiceNext(w, u, call).attempts && ServiceNext(w, u, call).attempts[l] == w.attempts[l]
  {
  }

  lemma AttemptsPersist(w: World, e: Event, l: LeaseId)
    requires WorkersOk(w) && l in w.attempts
    ensures l in Next(w, e).attempts
    ensures var a, b := w.attempts[l], Next(w, e).attempts[l];
            b.job == a.job && b.material == a.material && b.series == a.series && b.number == a.number
  {
    match e {
      case Worker(k, step) =>
        if k in w.attempts {
          WorkerFrame(w, k, w.attempts[k], step);
        }
      case Service(u, call) => ServiceFrame(w, u, call, l);
      case Uploading(m, step) =>
        if m in w.uploads {
          UploadFrame(w, m, step);
        }
      case Storage(step) => StorageFrame(w, step);
    }
  }

  /**
   Once a job is cancelled no attempt of it makes the material ready, whether or not the
   attempt had written its lease by then.
   */
  lemma {:induction false} CancelledNeverReadies(w: World, l: LeaseId, events: seq<Event>)
    requires WorkersOk(w) && l in w.attempts && WasCancelled(w.rows.history, w.attempts[l].job)
    ensures WasReadied(Run(w, events).rows.history, l) ==> WasReadied(w.rows.history, l)
    decreases |events|
  {
    if events != [] {
      var e, a := events[0], w.attempts[l];
      var v := Next(w, e);
      assert AttemptOk(w.rows, w.nextLease, l, a);
      if a.material in w.rows.materials {
        assert JobOk(w.rows.history, a.job, w.rows.jobs[a.job]);
      }
      NextKeeps(w, e);
      ExtendsKeepsFacts(w.rows.history, v.rows.history);
      AttemptsPersist(w, e, l);
      CancelledNeverReadies(v, l, events[1..]);
    }
  }

  /** A finished or cancelled job keeps its row for good, until its material row goes. */
  lemma {:induction false} ClosedForever(w: World, j: JobId, events: seq<Event>)
    requires WorkersOk(w) && j < w.rows.nextJob
    requires j in w.rows.jobs ==> Closed(w.rows.jobs[j])
    ensures var v := Run(w, events);
            j in v.rows.jobs ==> j in w.rows.jobs && v.rows.jobs[j] == w.rows.jobs[j]
    decreases |events|
  {
    if events != [] {
      NextKeeps(w, events[0]);
      ClosedForever(Next(w, events[0]), j, events[1..]);
    }
  }

  /** A job that failed for good stays as it is until somebody retries it. */
  lemma FailedUntilRetried(w: World, e: Event, j: JobId)
    requires Reachable(w) && j in w.rows.jobs && j in Next(w, e).rows.jobs
    requires FailedForGood(w.rows.jobs[j])
    ensures || Next(w, e).rows.jobs[j] == w.rows.jobs[j]
            || Retries(Next(w, e).rows.history, j) > Retries(w.rows.history, j)
  {
    ReachableIsOk(w);
    NextKeeps(w, e);
  }

  /** No job succeeds unless its material was ready at some point of the run. */
  lemma SucceededWasReady(w: World, j: JobId)
    requires Reachable(w) && j in w.rows.jobs && w.rows.jobs[j].status == Succeeded
    ensures WasReady(w.rows.history, w.rows.jobs[j].material)
  {
    ReachableIsOk(w);
    assert JobOk(w.rows.history, j, w.rows.jobs[j]);
  }

  /** The branch of a claim that gives up on an exhausted job is never taken. */
  lemma QueuedJobsHaveBudget(w: World, u: UserId, j: JobId, now: Time)
    requires Reachable(w) && j in w.rows.jobs && w.rows.jobs[j].status == Queued
    ensures w.rows.jobs[j].attemptCount < w.rows.jobs[j].maxAttempts
    ensures ClaimJob(w.rows, u, j, now).1.None? ==> ClaimJob(w.rows, u, j, now).0 == w.rows
  {
    ReachableIsOk(w);
    assert JobOk(w.rows.history, j, w.rows.jobs[j]);
  }

  /** Whatever recovery and crashes do, claims are bounded by the retries. */
  lemma ClaimsAreBudgeted(w: World, j: JobId)
    requires Reachable(w)
    ensures Claims(w.rows.history, j) <= MAX_ATTEMPTS * (1 + Retries(w.rows.history, j))
  {
    ReachableIsOk(w);
    ClaimBudget(w.rows.history, j);
  }

  /** A success, cancel or failure call takes effect exactly when it comes from the current attempt. */
  lemma MarkTakesEffectIff(r: Rows, a: Attempt, now: Time)
    requires Marks(a.pc)
    ensures ApplyMark(r, a, now) != r <==>
            OwnsJob(r, a.owner, a.job) && r.jobs[a.job].status == Running && r.jobs[a.job].attemptCount == a.number
  {
    if !LostJob(r, a) {
      var s := DropChunks(r, a.material, a.dropped);
      assert s.jobs == r.jobs && s.history == r.history;
      assert ApplyMark(r, a, now).jobs[a.job].status != Running;
    }
  }

  /** A lease is written exactly when the current attempt writes it on a row that is there. */
  lemma LeaseTakesEffectIff(r: Rows, u: UserId, j: JobId, number: nat, m: MaterialId, l: LeaseId, now: Time)
    ensures TakeLease(r, u, j, number, m, l, now) != r <==>
            && OwnsJob(r, u, j) && r.jobs[j].status == Running && r.jobs[j].attemptCount == number
            && m in r.materials
  {
    if IsCurrentAttempt(r, u, j, Some(number)) && m in r.materials {
      assert TakeLease(r, u, j, number, m, l, now).history == Then(r.history, Wrote(m, l));
    }
  }

  /** A report changes the rows exactly when it comes from the current attempt and says something new. */
  lemma ReportTakesEffectIff(r: Rows, u: UserId, j: JobId, percent: int, number: nat, now: Time)
    ensures UpdateProgress(r, u, j, percent, Some(number), now) != r <==>
            && OwnsJob(r, u, j) && r.jobs[j].status == Running && r.jobs[j].attemptCount == number
            && (r.jobs[j].updatedAt != now
                || r.jobs[j].progress != if percent < 0 then 0 else if percent > 100 then 100 else percent)
  {
    var s := UpdateProgress(r, u, j, percent, Some(number), now);
    if IsCurrentAttempt(r, u, j, Some(number)) {
      assert s.jobs[j] == r.jobs[j] ==> s.jobs == r.jobs;
    }
  }

  /** Within one retry series a later claim fences every earlier attempt: its calls change no row. */
  lemma EarlierAttemptIsFenced(w: World, l: LeaseId, later: LeaseId, step: WorkerStep)
    requires Reachable(w) && l in w.attempts && later in w.attempts
    requires w.attempts[l].job == w.attempts[later].job && w.attempts[l].series == w.attempts[later].series
    requires w.attempts[l].number < w.attempts[later].number
    requires w.attempts[l].job in w.rows.jobs && w.rows.jobs[w.attempts[l].job].series == w.attempts[l].series
    requires step.Report? || step.WriteLease? || step.Mark?
    ensures Next(w, Worker(l, step)).rows == w.rows
  {
    ReachableIsOk(w);
    assert AttemptOk(w.rows, w.nextLease, later, w.attempts[later]);
    assert OwnsMaterial(w.rows, w.rows.jobs[w.attempts[l].job].owner, w.rows.jobs[w.attempts[l].job].material);
  }

  /** In every reachable state, and over every stretch that led to it, claims take places in the queue. */
  lemma EpisodesAreClaimedOnce(w: World, past: History, j: JobId)
    requires Reachable(w) && Extends(past, w.rows.history)
    ensures Claims(w.rows.history, j) <= Enqueues(w.rows.history, j) + Retries(w.rows.history, j)
    ensures !WaitingForClaim(past, j) ==>
              Claims(w.rows.history, j) - Claims(past, j)
              <= Enqueues(w.rows.history, j) + Retries(w.rows.history, j) - Enqueues(past, j) - Retries(past, j)
  {
    ReachableIsOk(w);
    StartIsPast(w.rows.history);
    ClaimsTakePlaces(Start, w.rows.history, j);
    ClaimsTakePlaces(past, w.rows.history, j);
  }

  lemma {:induction h} StartIsPast(h: History)
    ensures Extends(Start, h)
  {
  }

  /** Two claims of the same series never get the same number. */
  lemma ClaimsAreNumberedUpwards(w: World, past: History, j: JobId, series: nat, number: nat, earlier: nat)
    requires Reachable(w) && Extends(Then(past, Claimed(j, series, number)), w.rows.history)
    requires WasClaimed(past, j, series, earlier)
    ensures earlier < number
  {
    ReachableIsOk(w);
    SoundPrefix(Then(past, Claimed(j, series, number)), w.rows.history);
    ClaimedNumberBound(past, j, series, earlier, number - 1);
  }

  lemma {:induction false} RunAppend(w: World, events: seq<Event>, e: Event)
    ensures Run(w, events + [e]) == Next(Run(w, events), e)
    decreases |events|
  {
    if events == [] {
      assert Run(Next(w, e), [e][1..]) == Next(w, e);
    } else {
      assert (events + [e])[1..] == events[1..] + [e];
      RunAppend(Next(w, events[0]), events[1..], e);
    }
  }

  lemma ReachableNext(w: World, e: Event)
    requires Reachable(w)
    ensures Reachable(Next(w, e))
  {
    var users, events :| w == Run(Init(users), events);
    RunAppend(Init(users), events, e);
    assert Next(w, e) == Run(Init(users), events + [e]);
  }

  lemma InitIsReachable(users: map<UserId, User>)
    ensures Reachable(Init(users))
  {
    assert Init(users) == Run(Init(users), []);
  }
}
