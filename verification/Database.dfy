/**
 The rows as the services see them: tables that the transactions of one session update in
 place. `Snapshot` is their value, on which the transactions are specified.
 */
module Database {
  import opened Options
  import opened Tables
  import opened RowInvariants

  class Session {
    var users: map<UserId, User>
    var materials: map<MaterialId, Material>
    var jobs: map<JobId, Job>
    var nextMaterial: MaterialId
    var nextJob: JobId
    ghost var history: History

    constructor (users: map<UserId, User>)
      ensures Snapshot() == Rows(users, map[], map[], 0, 0, Start)
    {
      this.users := users;
      materials, jobs := map[], map[];
      nextMaterial, nextJob := 0, 0;
      history := Start;
    }

    ghost function Snapshot(): Rows
      reads this
    {
      Rows(users, materials, jobs, nextMaterial, nextJob, history)
    }

    /** The rows are in order, as those of every reachable state are. */
    ghost predicate Valid()
      reads this
    {
      InOrder(Snapshot())
    }

    predicate Exists(u: UserId)
      reads this
    {
      u in users
    }

    /** The user row under lock, when the service insists on an active account. */
    predicate IsActive(u: UserId)
      reads this
    {
      u in users && !users[u].disabled
    }

    predicate HasJob(u: UserId, j: JobId)
      reads this
    {
      j in jobs && jobs[j].owner == u
    }

    predicate HasMaterial(u: UserId, m: MaterialId)
      reads this
    {
      m in materials && materials[m].owner == u
    }

    /** Writes the processing columns of a material and takes its lease away. */
    method Settle(m: MaterialId, status: ProcessingStatus, message: Message)
      requires m in materials
      modifies this`materials
      ensures materials == old(materials)[m := Settled(old(materials)[m], status, message)]
    {
      var mat := materials[m];
      mat := mat.(processing := status);
      mat := mat.(lease := None, leaseExpires := None);
      mat := mat.(message := message);
      materials := materials[m := mat];
    }

    ghost method Note(note: Note)
      modifies this`history
      ensures history == Then(old(history), note)
    {
      history := Then(history, note);
    }
  }
}
