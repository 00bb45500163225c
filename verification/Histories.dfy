/**
 What a history of the pipeline must look like: the lease, cancel, attempt and queue
 rules, stated over the order of events alone.
 */
module Histories {
  import opened Options
  import opened Tables

  /** The lease id last written on a material row. */
  function LastWrote(h: History, m: MaterialId): Option<LeaseId> {
    match h
    case Start => None
    case Then(past, note) =>
      if note.Wrote? && note.material == m then Some(note.lease) else LastWrote(past, m)
  }

  predicate WasWritten(h: History, l: LeaseId) {
    h.Then? && ((h.latest.Wrote? && h.latest.lease == l) || WasWritten(h.past, l))
  }

  /** Some attempt made a material ready with this lease. */
  predicate WasReadied(h: History, l: LeaseId) {
    h.Then? && ((h.latest.Readied? && h.latest.lease == l) || WasReadied(h.past, l))
  }

  predicate WasReady(h: History, m: MaterialId) {
    h.Then? && ((h.latest.Readied? && h.latest.material == m) || WasReady(h.past, m))
  }

  predicate WasCancelled(h: History, j: JobId) {
    h.Then? && ((h.latest.CancelledJobs? && j in h.latest.jobs) || WasCancelled(h.past, j))
  }

  function Claims(h: History, j: JobId): nat {
    match h
    case Start => 0
    case Then(past, note) => Claims(past, j) + (if note.Claimed? && note.job == j then 1 else 0)
  }

  function Retries(h: History, j: JobId): nat {
    match h
    case Start => 0
    case Then(past, note) => Retries(past, j) + (if note == Retried(j) then 1 else 0)
  }

  /** The job was put in the queue and not claimed since. */
  predicate WaitingForClaim(h: History, j: JobId) {
    h.Then? && match h.latest {
      case Enqueued(k) => k == j || WaitingForClaim(h.past, j)
      case Retried(k) => k == j || WaitingForClaim(h.past, j)
      case Claimed(k, _, _) => k != j && WaitingForClaim(h.past, j)
      case _ => WaitingForClaim(h.past, j)
    }
  }

  /** Every number claimed so far in this series of the job is at most `n`. */
  predicate NumbersUpTo(h: History, j: JobId, series: nat, n: int) {
    h.Start? || (
      && (h.latest.Claimed? && h.latest.job == j && h.latest.series == series ==> h.latest.number <= n)
      && NumbersUpTo(h.past, j, series, n))
  }

  /** No claim of the job belongs to a series after this one. */
  predicate SeriesUpTo(h: History, j: JobId, series: nat) {
    h.Start? || (
      && (h.latest.Claimed? && h.latest.job == j ==> h.latest.series <= series)
      && SeriesUpTo(h.past, j, series))
  }

  predicate WasClaimed(h: History, j: JobId, series: nat, number: nat) {
    h.Then? && (h.latest == Claimed(j, series, number) || WasClaimed(h.past, j, series, number))
  }

  /** One more event is allowed by what went before. */
  predicate Allowed(past: History, note: Note) {
    match note
    case Readied(m, l, j) =>
      LastWrote(past, m) == Some(l) && !WasReadied(past, l) && !WasCancelled(past, j)
    case Wrote(_, l) => !WasWritten(past, l)
    case Claimed(j, series, number) =>
      && WaitingForClaim(past, j)
      && NumbersUpTo(past, j, series, number - 1)
      && Claims(past, j) < MAX_ATTEMPTS * (1 + Retries(past, j))
    case Finished(_, m) => WasReady(past, m)
    case _ => true
  }

  /** Every event was allowed when it happened. */
  predicate Sound(h: History) {
    h.Start? || (Allowed(h.past, h.latest) && Sound(h.past))
  }

  /** A job is claimed at most `MAX_ATTEMPTS` times, and as often again for each retry. */
  lemma {:induction false} ClaimBudget(h: History, j: JobId)
    requires Sound(h)
    ensures Claims(h, j) <= MAX_ATTEMPTS * (1 + Retries(h, j))
  {
    if h.Then? {
      ClaimBudget(h.past, j);
    }
  }

  predicate Extends(h: History, later: History) {
    h == later || (later.Then? && Extends(h, later.past))
  }

  predicate Mentions(note: Note, jobBound: JobId, leaseBound: LeaseId) {
    match note
    case Wrote(_, l) => l < leaseBound
    case Readied(_, l, j) => l < leaseBound && j < jobBound
    case Enqueued(j) => j < jobBound
    case Claimed(j, _, _) => j < jobBound
    case Retried(j) => j < jobBound
    case Finished(j, _) => j < jobBound
    case CancelledJobs(js) => forall j | j in js :: j < jobBound
  }

  /** Only ids that have been handed out appear. */
  predicate Below(h: History, jobBound: JobId, leaseBound: LeaseId) {
    h.Start? || (Mentions(h.latest, jobBound, leaseBound) && Below(h.past, jobBound, leaseBound))
  }

  lemma {:induction h} BelowGrows(h: History, jobs: JobId, leases: LeaseId, moreJobs: JobId, moreLeases: LeaseId)
    requires Below(h, jobs, leases) && jobs <= moreJobs && leases <= moreLeases
    ensures Below(h, moreJobs, moreLeases)
  {
  }

  lemma {:induction h} FreshJob(h: History, jobs: JobId, leases: LeaseId, j: JobId)
    requires Below(h, jobs, leases) && jobs <= j
    ensures Claims(h, j) == 0 && Retries(h, j) == 0 && !WasCancelled(h, j)
    ensures SeriesUpTo(h, j, 0) && NumbersUpTo(h, j, 0, 0)
  {
  }

  lemma {:induction h} FreshLease(h: History, jobs: JobId, leases: LeaseId, l: LeaseId)
    requires Below(h, jobs, leases) && leases <= l
    ensures !WasWritten(h, l) && !WasReadied(h, l)
  {
  }

  lemma {:induction h} LastWroteWasWritten(h: History, m: MaterialId)
    ensures LastWrote(h, m).Some? ==> WasWritten(h, LastWrote(h, m).value)
  {
  }

  /** A new series starts with no numbers handed out. */
  lemma {:induction h} NewSeries(h: History, j: JobId, series: nat)
    requires SeriesUpTo(h, j, series)
    ensures SeriesUpTo(h, j, series + 1) && NumbersUpTo(h, j, series + 1, 0)
  {
  }

  lemma {:induction h} NumbersUpToGrows(h: History, j: JobId, series: nat, n: int, more: int)
    requires NumbersUpTo(h, j, series, n) && n <= more
    ensures NumbersUpTo(h, j, series, more)
  {
  }

  lemma {:induction false} ClaimedNumberBound(h: History, j: JobId, series: nat, number: nat, n: int)
    requires NumbersUpTo(h, j, series, n) && WasClaimed(h, j, series, number)
    ensures number <= n
  {
    if h.latest != Claimed(j, series, number) {
      ClaimedNumberBound(h.past, j, series, number, n);
    }
  }

  lemma {:induction later} ExtendsIsTransitive(a: History, b: History, later: History)
    requires Extends(a, b) && Extends(b, later)
    ensures Extends(a, later)
  {
  }

  lemma {:induction later} RetriesGrow(h: History, later: History, j: JobId)
    requires Extends(h, later)
    ensures Retries(h, j) <= Retries(later, j)
  {
  }

  /** Facts of the past stay facts. */
  lemma {:induction later} ExtendsKeepsFacts(h: History, later: History)
    requires Extends(h, later)
    ensures forall m :: WasReady(h, m) ==> WasReady(later, m)
    ensures forall j :: WasCancelled(h, j) ==> WasCancelled(later, j)
    ensures forall l :: WasWritten(h, l) ==> WasWritten(later, l)
    ensures forall l :: WasReadied(h, l) ==> WasReadied(later, l)
    ensures forall j, s, n :: WasClaimed(h, j, s, n) ==> WasClaimed(later, j, s, n)
  {
  }

  lemma {:induction false} SoundPrefix(h: History, later: History)
    requires Extends(h, later) && Sound(later)
    ensures Sound(h)
  {
    if h != later {
      SoundPrefix(h, later.past);
    }
  }

  /** Whatever made a material ready held the lease last written there, unused, for a job nobody had cancelled. */
  lemma {:induction false} ReadiedByLeaseHolder(h: History, past: History, m: MaterialId, l: LeaseId, j: JobId)
    requires Sound(h) && Extends(Then(past, Readied(m, l, j)), h)
    ensures LastWrote(past, m) == Some(l) && !WasReadied(past, l) && !WasCancelled(past, j)
  {
    SoundPrefix(Then(past, Readied(m, l, j)), h);
  }

  /** A claim takes the one place the job had in the queue since it was last put there. */
  lemma {:induction false} EpisodeIsClaimedOnce(h: History, past: History, j: JobId, series: nat, number: nat)
    requires Sound(h) && Extends(Then(past, Claimed(j, series, number)), h)
    ensures WaitingForClaim(past, j) && !WaitingForClaim(Then(past, Claimed(j, series, number)), j)
  {
    SoundPrefix(Then(past, Claimed(j, series, number)), h);
  }

  /** How often the job was put in the queue. */
  function Enqueues(h: History, j: JobId): nat {
    match h
    case Start => 0
    case Then(past, note) => Enqueues(past, j) + (if note == Enqueued(j) then 1 else 0)
  }

  /** The places in the queue that the job was given and no claim has taken. */
  function Unclaimed(h: History, j: JobId): int {
    Enqueues(h, j) + Retries(h, j) - Claims(h, j)
  }

  /**
   Over any stretch of a sound history a job is claimed no more often than it was queued or
   retried in it, and once more only if it was waiting already: between two claims of a job
   it was put in the queue again.
   */
  lemma {:induction false} ClaimsTakePlaces(h: History, later: History, j: JobId)
    requires Sound(later) && Extends(h, later)
    ensures Unclaimed(h, j) + (if WaitingForClaim(later, j) then 1 else 0)
         <= Unclaimed(later, j) + (if WaitingForClaim(h, j) then 1 else 0)
  {
    if h != later {
      ClaimsTakePlaces(h, later.past, j);
    }
  }
}
