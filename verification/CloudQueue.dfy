/** The managed cloud scans (internal/hub/cloud_worker.go) with the requests that start
    and stop them (internal/hub/environments.go): leased jobs run by any number of
    workers that may crash, stall or outlive their lease. One method is one transaction;
    times are whole seconds of the database clock. */
module CloudQueue {
  import opened Backoff
  import opened Options

  datatype Status = Queued | Running | Ingesting | Complete | Partial | Failed | Cancelled

  datatype Job = Job(environment: string, status: Status, attempts: nat, nextAt: int, lease: Option<int>, ingestion: Option<string>)

  datatype Connection = SetupPending | AuthError | Connected | Disconnected

  /** The source of a cloud environment carries the environment's id in its own, so it is
      kept here with the number of snapshots that were applied from it. */
  datatype SourceState = Absent | Live | Revoked
  datatype Environment = Environment(connection: Connection, scheduled: bool, source: SourceState, applied: nat)

  datatype IngestionStatus = Pending | Ingested | Rejected
  datatype Ingestion = Ingestion(environment: string, status: IngestionStatus)

  type Jobs = map<string, Job>
  type Environments = map<string, Environment>
  type Ingestions = map<string, Ingestion>

  /** What a worker holds: the job and the attempts it read before raising them. */
  datatype Claim = Claim(job: string, attempts: nat)

  const MAX_ATTEMPTS := 5
  const LEASE := 300

  // ----- The statements -----

  predicate Active(job: Job) { job.status == Queued || job.status == Running || job.status == Ingesting }

  /** The partial unique index: one active job for an environment. */
  predicate Busy(jobs: Jobs, environment: string, except: Option<string>) {
    exists id :: id in jobs && Some(id) != except && jobs[id].environment == environment && Active(jobs[id])
  }

  predicate LeaseOver(job: Job, now: int) {
    (job.status == Running || job.status == Ingesting) && job.lease.Some? && job.lease.value < now
  }

  function Recovered(job: Job, now: int): Job {
    if !LeaseOver(job, now) then job
    else if job.attempts < MAX_ATTEMPTS then job.(status := Queued, nextAt := now, lease := None)
    else job.(status := Failed, lease := None)
  }

  function Recover(jobs: Jobs, now: int): Jobs {
    map id | id in jobs :: Recovered(jobs[id], now)
  }

  predicate Online(environments: Environments, id: string) {
    id in environments && environments[id].connection == Connected
  }

  predicate Ready(environments: Environments, job: Job, now: int) {
    job.status == Queued && job.nextAt <= now && Online(environments, job.environment)
  }

  function Taken(job: Job, now: int): Job {
    job.(status := Running, attempts := job.attempts + 1, lease := Some(now + LEASE))
  }

  /** failOrRetry is guarded neither by the status of the job nor by the claim, and it
      leaves the lease as it is. */
  function Retried(job: Job, claim: Claim, now: int, retryable: bool, retryAfter: int): Job {
    var attempt := claim.attempts + 1;
    if retryable && attempt < MAX_ATTEMPTS then
      job.(status := Queued, nextAt := now + (if retryAfter <= 0 then Delay(attempt, 6) else retryAfter))
    else
      job.(status := Failed)
  }

  function WithRetry(jobs: Jobs, claim: Claim, now: int, retryable: bool, retryAfter: int): Jobs {
    if claim.job !in jobs then jobs else
    var job := Retried(jobs[claim.job], claim, now, retryable, retryAfter);
    if Active(job) && Busy(jobs, job.environment, Some(claim.job)) then jobs else jobs[claim.job := job]
  }

  function Beaten(job: Job, now: int): Job {
    if job.status == Running then job.(lease := Some(now + LEASE)) else job
  }

  function Abandoned(job: Job): Job {
    if job.status == Running || job.status == Queued then job.(status := Cancelled) else job
  }

  predicate Awaits(job: Job, ingestions: Ingestions) {
    job.status == Ingesting && job.ingestion.Some? && job.ingestion.value in ingestions && ingestions[job.ingestion.value].status == Pending
  }

  function KeptAlive(job: Job, ingestions: Ingestions, now: int): Job {
    if Awaits(job, ingestions) then job.(lease := Some(now + LEASE)) else job
  }

  predicate Final(jobs: Jobs, ingestions: Ingestions, id: string) {
    && id in jobs && jobs[id].status == Ingesting && jobs[id].ingestion.Some?
    && jobs[id].ingestion.value in ingestions && ingestions[jobs[id].ingestion.value].status != Pending
  }

  function Finalized(job: Job, ingestion: Ingestion, partial: bool): Job {
    job.(status := if ingestion.status == Rejected then Failed else if partial then Partial else Complete, lease := None)
  }

  function Stopped(jobs: Jobs, environment: string): Jobs {
    map id | id in jobs :: if jobs[id].environment == environment && Active(jobs[id]) then jobs[id].(status := Cancelled) else jobs[id]
  }

  function Fresh(environment: string, now: int): Job {
    Job(environment, Queued, 0, now, None, None)
  }

  // ----- The database -----

  datatype Tables = Tables(environments: Environments, jobs: Jobs, ingestions: Ingestions)

  function Added(t: Tables, environment: string, job: string, now: int): Tables {
    if job in t.jobs || Busy(t.jobs, environment, None) then t else t.(jobs := t.jobs[job := Fresh(environment, now)])
  }

  function Submitted(t: Tables, claim: Claim, ingestion: string, now: int): Tables {
    if claim.job !in t.jobs then t else
    var job := t.jobs[claim.job];
    if !Online(t.environments, job.environment) then
      t.(jobs := t.jobs[claim.job := job.(status := Cancelled)])
    else if ingestion in t.ingestions || Busy(t.jobs, job.environment, Some(claim.job)) then t
    else t.(ingestions := t.ingestions[ingestion := Ingestion(job.environment, Pending)],
            jobs := t.jobs[claim.job := job.(status := Ingesting, ingestion := Some(ingestion), lease := Some(now + LEASE))])
  }

  /** worker.go's processOne: a snapshot is applied only while its source is live, and a
      failure keeps the ingestion pending or rejects it. */
  function Processed(t: Tables, ingestion: string, valid: bool, giveUp: bool): Tables {
    if ingestion !in t.ingestions || t.ingestions[ingestion].status != Pending then t else
    var id := t.ingestions[ingestion].environment;
    if valid && id in t.environments && t.environments[id].source == Live then
      t.(environments := t.environments[id := t.environments[id].(applied := t.environments[id].applied + 1)],
         ingestions := t.ingestions[ingestion := t.ingestions[ingestion].(status := Ingested)])
    else if giveUp then t.(ingestions := t.ingestions[ingestion := t.ingestions[ingestion].(status := Rejected)])
    else t
  }

  function Verified(t: Tables, id: string, accepted: bool, job: string, now: int): Tables {
    if id !in t.environments || (t.environments[id].connection != SetupPending && t.environments[id].connection != AuthError) then t
    else if !accepted then t.(environments := t.environments[id := t.environments[id].(connection := AuthError)])
    else if job in t.jobs || Busy(t.jobs, id, None) then t
    else t.(environments := t.environments[id := t.environments[id].(connection := Connected, source := Live)],
            jobs := t.jobs[job := Fresh(id, now)])
  }

  function Parted(t: Tables, id: string): Tables {
    if id !in t.environments || t.environments[id].connection == Disconnected then t else
    var e := t.environments[id];
    Tables(t.environments[id := e.(connection := Disconnected, scheduled := false, source := if e.source == Absent then Absent else Revoked)],
           Stopped(t.jobs, id), t.ingestions)
  }

  /** updateEnvironment: the schedule of an environment that is not disconnected. */
  function Rescheduled(t: Tables, id: string, scheduled: bool): Tables {
    if id !in t.environments || t.environments[id].connection == Disconnected then t
    else t.(environments := t.environments[id := t.environments[id].(scheduled := scheduled)])
  }

  /** revokeSource: an administrator revokes the environment's source, and nothing else. */
  function Cut(t: Tables, id: string): Tables {
    if id !in t.environments || t.environments[id].source != Live then t
    else t.(environments := t.environments[id := t.environments[id].(source := Revoked)])
  }

  // ----- What every transaction keeps -----

  /** Two active jobs of one environment. */
  predicate Twins(jobs: Jobs, i: string, j: string) {
    i in jobs && j in jobs && i != j && jobs[i].environment == jobs[j].environment && Active(jobs[i]) && Active(jobs[j])
  }

  /** A disconnected environment has no live source. */
  predicate Severed(environments: Environments, e: string) {
    e in environments && environments[e].connection == Disconnected ==> environments[e].source != Live
  }

  ghost predicate OneActive(jobs: Jobs) {
    forall i, j :: !Twins(jobs, i, j)
  }

  ghost predicate Sound(t: Tables) {
    OneActive(t.jobs) && forall e :: Severed(t.environments, e)
  }

  /** A write that activates a job only where no other one is active. */
  lemma PutOne(jobs: Jobs, id: string, job: Job)
    requires OneActive(jobs) && (Active(job) ==> !Busy(jobs, job.environment, Some(id)))
    ensures OneActive(jobs[id := job])
  {
    var next := jobs[id := job];
    forall i, j
      ensures !Twins(next, i, j)
    {
      assert !Twins(jobs, i, j);
    }
  }

  /** Writes that activate no job, and add none. */
  lemma NoneActivated(jobs: Jobs, next: Jobs)
    requires OneActive(jobs)
    requires forall i :: i in next ==> i in jobs && next[i].environment == jobs[i].environment && (Active(next[i]) ==> Active(jobs[i]))
    ensures OneActive(next)
  {
    forall i, j
      ensures !Twins(next, i, j)
    {
      assert !Twins(jobs, i, j);
    }
  }

  lemma ClaimKeepsSound(t: Tables, id: string, now: int)
    requires Sound(t) && id in t.jobs && Ready(t.environments, Recovered(t.jobs[id], now), now)
    ensures Sound(t.(jobs := Recover(t.jobs, now)[id := Taken(Recovered(t.jobs[id], now), now)]))
  {
    NoneActivated(t.jobs, Recover(t.jobs, now)[id := Taken(Recovered(t.jobs[id], now), now)]);
  }

  lemma RetryKeepsSound(t: Tables, claim: Claim, now: int, retryable: bool, retryAfter: int)
    requires Sound(t)
    ensures Sound(t.(jobs := WithRetry(t.jobs, claim, now, retryable, retryAfter)))
  {
    if claim.job in t.jobs {
      var job := Retried(t.jobs[claim.job], claim, now, retryable, retryAfter);
      if !(Active(job) && Busy(t.jobs, job.environment, Some(claim.job))) {
        PutOne(t.jobs, claim.job, job);
      }
    }
  }

  /** The writes of a worker's heartbeat and abandonment, and of finalizeOne. */
  lemma QuietKeepsSound(t: Tables, id: string, job: Job)
    requires Sound(t) && id in t.jobs && job.environment == t.jobs[id].environment && (Active(job) ==> Active(t.jobs[id]))
    ensures Sound(t.(jobs := t.jobs[id := job]))
  {
    NoneActivated(t.jobs, t.jobs[id := job]);
  }

  lemma KeepAliveKeepsSound(t: Tables, now: int)
    requires Sound(t)
    ensures Sound(t.(jobs := map id | id in t.jobs :: KeptAlive(t.jobs[id], t.ingestions, now)))
  {
    NoneActivated(t.jobs, map id | id in t.jobs :: KeptAlive(t.jobs[id], t.ingestions, now));
  }

  lemma AddedKeepsSound(t: Tables, environment: string, job: string, now: int)
    requires Sound(t)
    ensures Sound(Added(t, environment, job, now))
  {
    if !(job in t.jobs || Busy(t.jobs, environment, None)) {
      PutOne(t.jobs, job, Fresh(environment, now));
    }
  }

  lemma SubmittedKeepsSound(t: Tables, claim: Claim, ingestion: string, now: int)
    requires Sound(t)
    ensures Sound(Submitted(t, claim, ingestion, now))
  {
    if claim.job in t.jobs {
      var job := t.jobs[claim.job];
      if !Online(t.environments, job.environment) {
        PutOne(t.jobs, claim.job, job.(status := Cancelled));
      } else if !(ingestion in t.ingestions || Busy(t.jobs, job.environment, Some(claim.job))) {
        PutOne(t.jobs, claim.job, job.(status := Ingesting, ingestion := Some(ingestion), lease := Some(now + LEASE)));
      }
    }
  }

  lemma ProcessedKeepsSound(t: Tables, ingestion: string, valid: bool, giveUp: bool)
    requires Sound(t)
    ensures Sound(Processed(t, ingestion, valid, giveUp))
  {
    forall e
      ensures Severed(Processed(t, ingestion, valid, giveUp).environments, e)
    {
      assert Severed(t.environments, e);
    }
  }

  lemma VerifiedKeepsSound(t: Tables, id: string, accepted: bool, job: string, now: int)
    requires Sound(t)
    ensures Sound(Verified(t, id, accepted, job, now))
  {
    var next := Verified(t, id, accepted, job, now);
    if next.jobs != t.jobs {
      PutOne(t.jobs, job, Fresh(id, now));
    }
    forall e
      ensures Severed(next.environments, e)
    {
      assert Severed(t.environments, e);
    }
  }

  lemma PartedKeepsSound(t: Tables, id: string)
    requires Sound(t)
    ensures Sound(Parted(t, id))
  {
    NoneActivated(t.jobs, Stopped(t.jobs, id));
    forall e
      ensures Severed(Parted(t, id).environments, e)
    {
      assert Severed(t.environments, e);
    }
  }

  lemma RescheduledKeepsSound(t: Tables, id: string, scheduled: bool)
    requires Sound(t)
    ensures Sound(Rescheduled(t, id, scheduled))
  {
    if id in t.environments {
      assert Severed(t.environments, id);
      EnvironmentKeepsSound(t, id, t.environments[id].(scheduled := scheduled));
    }
  }

  lemma CutKeepsSound(t: Tables, id: string)
    requires Sound(t)
    ensures Sound(Cut(t, id))
  {
    if id in t.environments {
      EnvironmentKeepsSound(t, id, t.environments[id].(source := Revoked));
    }
  }

  /** The writes that concern an environment's setup, schedule or source alone. */
  lemma EnvironmentKeepsSound(t: Tables, id: string, e: Environment)
    requires Sound(t) && Severed(map[id := e], id)
    ensures Sound(t.(environments := t.environments[id := e]))
  {
    var next := t.environments[id := e];
    forall other
      ensures Severed(next, other)
    {
      assert Severed(t.environments, other) && Severed(map[id := e], id);
    }
  }

  // ----- What the transactions do to one job -----

  const MINUTE := 60

  /** An expired lease is taken away: the job waits again at once while it has attempts
      left, and has failed otherwise. */
  predicate RecoveredTo(was: Job, job: Job, now: int) {
    if (was.status == Running || was.status == Ingesting) && was.lease.Some? && was.lease.value < now then
      && job.environment == was.environment && job.attempts == was.attempts && job.ingestion == was.ingestion && job.lease.None?
      && (was.attempts < 5 ==> job.status == Queued && job.nextAt == now)
      && (was.attempts >= 5 ==> job.status == Failed && job.nextAt == was.nextAt)
    else job == was
  }

  /** A claimed job runs for five minutes and has one attempt more. */
  predicate ClaimedTo(was: Job, job: Job, now: int) {
    && job.status == Running && job.attempts == was.attempts + 1 && job.lease == Some(now + 5 * MINUTE)
    && job.environment == was.environment && job.ingestion == was.ingestion
  }

  ghost predicate Rest(was: Jobs, jobs: Jobs, id: string) {
    jobs.Keys == was.Keys && forall j :: j in was && j != id ==> jobs[j] == was[j]
  }

  predicate Over(job: Job) {
    job.status == Complete || job.status == Partial || job.status == Failed || job.status == Cancelled
  }

  /** A new job of the environment waits from now on, unless it has one that is not over. */
  ghost predicate JobAdded(was: Jobs, jobs: Jobs, environment: string, job: string, now: int) {
    if (exists j :: j in was && was[j].environment == environment && !Over(was[j])) || job in was then jobs == was
    else
      && job in jobs && jobs == was[job := jobs[job]]
      && jobs[job].environment == environment && jobs[job].status == Queued && jobs[job].attempts == 0 && jobs[job].nextAt == now
      && jobs[job].lease.None? && jobs[job].ingestion.None?
  }

  /** A finished ingestion ends its job: failed, or else partial or complete as its scan was. */
  predicate Ended(was: Job, job: Job, ingestion: Ingestion, partial: bool) {
    && (job.status == Failed <==> ingestion.status == Rejected)
    && (job.status == Partial <==> ingestion.status != Rejected && partial)
    && (job.status == Complete <==> ingestion.status != Rejected && !partial)
    && job.lease.None?
    && job.environment == was.environment && job.attempts == was.attempts && job.ingestion == was.ingestion && job.nextAt == was.nextAt
  }

  /** Nothing active is left of a disconnected environment, and nothing else is touched. */
  ghost predicate PartedFrom(t: Tables, id: string, found: bool, next: Tables) {
    && (found <==> id in t.environments && t.environments[id].connection != Disconnected)
    && (!found ==> next == t)
    && (found ==>
          && id in next.environments && next.environments == t.environments[id := next.environments[id]] && next.ingestions == t.ingestions
          && next.environments[id].connection == Disconnected && !next.environments[id].scheduled
          && next.environments[id].applied == t.environments[id].applied
          && next.environments[id].source == (if t.environments[id].source == Absent then Absent else Revoked)
          && next.jobs.Keys == t.jobs.Keys
          && forall j :: j in t.jobs ==>
               && next.jobs[j] == t.jobs[j].(status := next.jobs[j].status)
               && next.jobs[j].status == if t.jobs[j].environment == id && !Over(t.jobs[j]) then Cancelled else t.jobs[j].status)
  }

  lemma PartedIs(t: Tables, id: string)
    ensures PartedFrom(t, id, id in t.environments && t.environments[id].connection != Disconnected, Parted(t, id))
  {
  }

  /** A pending or failed setup that the provider accepts is connected with a live source
      and a first job; one that it does not accept has an error. */
  ghost predicate VerifiedFrom(t: Tables, id: string, accepted: bool, job: string, now: int, next: Tables) {
    var open := id in t.environments && (t.environments[id].connection == SetupPending || t.environments[id].connection == AuthError);
    var rival := job in t.jobs || exists j :: j in t.jobs && t.jobs[j].environment == id && !Over(t.jobs[j]);
    && (!open || (accepted && rival) ==> next == t)
    && (open && !(accepted && rival) ==>
          && id in next.environments && next.environments == t.environments[id := next.environments[id]] && next.ingestions == t.ingestions
          && next.environments[id].scheduled == t.environments[id].scheduled && next.environments[id].applied == t.environments[id].applied
          && (accepted ==> next.environments[id].connection == Connected && next.environments[id].source == Live && JobAdded(t.jobs, next.jobs, id, job, now))
          && (!accepted ==> next.environments[id].connection == AuthError && next.environments[id].source == t.environments[id].source && next.jobs == t.jobs))
  }

  lemma VerifiedIs(t: Tables, id: string, accepted: bool, job: string, now: int)
    ensures VerifiedFrom(t, id, accepted, job, now, Verified(t, id, accepted, job, now))
  {
  }

  // ----- The transactions -----

  class Hub {
    var environments: Environments
    var jobs: Jobs
    var ingestions: Ingestions

    function Contents(): Tables
      reads this
    {
      Tables(environments, jobs, ingestions)
    }

    /** One active job for an environment, no live source of a disconnected one. */
    ghost predicate Valid()
      reads this
    {
      Sound(Contents())
    }

    constructor ()
      ensures Contents() == Tables(map[], map[], map[]) && Valid()
    {
      environments, jobs, ingestions := map[], map[], map[];
    }

    /** createEnvironment for a cloud provider. */
    method Create(id: string, scheduled: bool)
      requires Valid() && id !in environments
      modifies `environments
      ensures environments == old(environments)[id := Environment(SetupPending, scheduled, Absent, 0)]
      ensures Valid()
    {
      hide Sound;
      EnvironmentKeepsSound(Contents(), id, Environment(SetupPending, scheduled, Absent, 0));
      environments := environments[id := Environment(SetupPending, scheduled, Absent, 0)];
    }

    method RecoverLeases(now: int)
      modifies `jobs
      ensures jobs == Recover(old(jobs), now)
      ensures jobs.Keys == old(jobs).Keys && forall id :: id in jobs ==> RecoveredTo(old(jobs)[id], jobs[id], now)
    {
      jobs := map id | id in jobs ::
        if LeaseOver(jobs[id], now) && jobs[id].attempts < MAX_ATTEMPTS then jobs[id].(status := Queued, nextAt := now, lease := None) else jobs[id];
      jobs := map id | id in jobs ::
        if LeaseOver(jobs[id], now) && jobs[id].attempts >= MAX_ATTEMPTS then jobs[id].(status := Failed, lease := None) else jobs[id];
    }

    /** claimOne: SKIP LOCKED lets the query return any ready job. Without one the
        transaction, and with it the recovery, is rolled back. */
    method ClaimOne(now: int) returns (claim: Option<Claim>)
      requires Valid()
      modifies `jobs
      ensures Valid()
      ensures var before := Recover(old(jobs), now);
        if forall id :: id in before ==> !Ready(environments, before[id], now) then claim.None? && jobs == old(jobs)
        else
          && claim.Some? && claim.value.job in before && Ready(environments, before[claim.value.job], now)
          && claim.value.attempts == before[claim.value.job].attempts
          && jobs == before[claim.value.job := Taken(before[claim.value.job], now)]
      ensures claim.Some? ==>
                && claim.value.job in old(jobs) && jobs.Keys == old(jobs).Keys
                && jobs[claim.value.job].environment in environments && environments[jobs[claim.value.job].environment].connection == Connected
                && claim.value.attempts == old(jobs)[claim.value.job].attempts
                && (exists waiting: Job ::
                      && RecoveredTo(old(jobs)[claim.value.job], waiting, now)
                      && waiting.status == Queued && waiting.nextAt <= now && ClaimedTo(waiting, jobs[claim.value.job], now))
                && forall j :: j in jobs && j != claim.value.job ==> RecoveredTo(old(jobs)[j], jobs[j], now)
    {
      hide Recover, Sound;
      var was := jobs;
      RecoverLeases(now);
      var ready := set id | id in jobs && Ready(environments, jobs[id], now);
      if ready == {} {
        assert forall id :: id in jobs && Ready(environments, jobs[id], now) ==> id in ready;
        jobs := was;
        return None;
      }
      var id :| id in ready;
      var job := jobs[id];
      RecoveredAt(was, id, now);
      ClaimKeepsSound(Contents().(jobs := was), id, now);
      RecoveredAttempts(was[id], job, now);
      jobs := jobs[id := job.(status := Running, attempts := job.attempts + 1, lease := Some(now + LEASE))];
      assert RecoveredTo(was[id], job, now) && ClaimedTo(job, jobs[id], now);
      return Some(Claim(id, job.attempts));
    }

    /** The progress callback. */
    method Heartbeat(claim: Claim, now: int)
      requires Valid()
      modifies `jobs
      ensures jobs == if claim.job in old(jobs) then old(jobs)[claim.job := Beaten(old(jobs)[claim.job], now)] else old(jobs)
      ensures Rest(old(jobs), jobs, claim.job)
      ensures claim.job in jobs ==>
                && jobs[claim.job] == old(jobs)[claim.job].(lease := jobs[claim.job].lease)
                && jobs[claim.job].lease == if jobs[claim.job].status == Running then Some(now + 5 * MINUTE) else old(jobs)[claim.job].lease
      ensures Valid()
    {
      hide Sound;
      if claim.job in jobs { QuietKeepsSound(Contents(), claim.job, Beaten(jobs[claim.job], now)); }
      if claim.job in jobs && jobs[claim.job].status == Running {
        jobs := jobs[claim.job := jobs[claim.job].(lease := Some(now + LEASE))];
      }
      assert claim.job in old(jobs) ==> jobs == old(jobs)[claim.job := Beaten(old(jobs)[claim.job], now)];
    }

    method FailOrRetry(claim: Claim, now: int, retryable: bool, retryAfter: int)
      requires Valid()
      modifies `jobs
      ensures jobs == WithRetry(old(jobs), claim, now, retryable, retryAfter)
      ensures jobs.Keys == old(jobs).Keys && forall id :: id in jobs && id != claim.job ==> jobs[id] == old(jobs)[id]
      ensures claim.job in jobs ==>
                && (jobs[claim.job].status == Queued ==> jobs[claim.job].nextAt == now + (if retryAfter > 0 then retryAfter else Delay(claim.attempts + 1, 6))
                                                         || jobs == old(jobs))
                && (jobs[claim.job].status == Failed && jobs != old(jobs) ==> jobs[claim.job].nextAt == old(jobs)[claim.job].nextAt)
                && (jobs == old(jobs) || jobs[claim.job].status == Queued || jobs[claim.job].status == Failed)
                && (!(retryable && claim.attempts + 1 < MAX_ATTEMPTS) ==> jobs[claim.job].status == Failed)
                && (retryable && claim.attempts + 1 < MAX_ATTEMPTS && !Busy(old(jobs), jobs[claim.job].environment, Some(claim.job)) ==>
                      jobs[claim.job].status == Queued && jobs[claim.job].nextAt == now + (if retryAfter > 0 then retryAfter else Delay(claim.attempts + 1, 6)))
                && jobs[claim.job].environment == old(jobs)[claim.job].environment && jobs[claim.job].ingestion == old(jobs)[claim.job].ingestion
      ensures claim.job in jobs && jobs != old(jobs) ==>
                && jobs[claim.job].lease == old(jobs)[claim.job].lease && jobs[claim.job].attempts == old(jobs)[claim.job].attempts
                && jobs[claim.job].status == if retryable && claim.attempts + 1 < MAX_ATTEMPTS then Queued else Failed
      ensures Valid()
    {
      hide Sound;
      RetryKeepsSound(Contents(), claim, now, retryable, retryAfter);
      if claim.job !in jobs {
        return;
      }
      var attempt := claim.attempts + 1;
      var delay := retryAfter;
      if delay <= 0 {
        delay := Delay(attempt, 6);
      }
      var job := jobs[claim.job].(status := Failed);
      if retryable && attempt < MAX_ATTEMPTS {
        job := jobs[claim.job].(status := Queued, nextAt := now + delay);
        if Busy(jobs, job.environment, Some(claim.job)) {
          return;
        }
      }
      jobs := jobs[claim.job := job];
    }

    /** The scan was cut short because its environment was disconnected. */
    method Abandon(claim: Claim)
      requires Valid()
      modifies `jobs
      ensures jobs == if claim.job in old(jobs) then old(jobs)[claim.job := Abandoned(old(jobs)[claim.job])] else old(jobs)
      ensures Rest(old(jobs), jobs, claim.job)
      ensures claim.job in jobs ==>
                && jobs[claim.job] == old(jobs)[claim.job].(status := jobs[claim.job].status)
                && (old(jobs)[claim.job].status == Running || old(jobs)[claim.job].status == Queued ==> jobs[claim.job].status == Cancelled)
                && (old(jobs)[claim.job].status != Running && old(jobs)[claim.job].status != Queued ==> jobs[claim.job].status == old(jobs)[claim.job].status)
      ensures Valid()
    {
      hide Sound;
      if claim.job in jobs { QuietKeepsSound(Contents(), claim.job, Abandoned(jobs[claim.job])); }
      if claim.job in jobs && (jobs[claim.job].status == Running || jobs[claim.job].status == Queued) {
        jobs := jobs[claim.job := jobs[claim.job].(status := Cancelled)];
      }
      assert claim.job in old(jobs) ==> jobs == old(jobs)[claim.job := Abandoned(old(jobs)[claim.job])];
    }

    /** The end of a scan: the snapshot is queued if the environment is still connected. */
    method Submit(claim: Claim, ingestion: string, now: int)
      requires Valid()
      modifies `jobs, `ingestions
      ensures Contents() == Submitted(old(Contents()), claim, ingestion, now)
      ensures ingestions != old(ingestions) ==>
                && claim.job in jobs && jobs[claim.job].environment in environments
                && environments[jobs[claim.job].environment].connection == Connected
                && ingestion !in old(ingestions) && ingestions == old(ingestions)[ingestion := Ingestion(jobs[claim.job].environment, Pending)]
                && Awaits(jobs[claim.job], ingestions) && jobs[claim.job].ingestion == Some(ingestion)
      ensures claim.job in jobs && !Online(environments, jobs[claim.job].environment) ==> jobs[claim.job].status == Cancelled && ingestions == old(ingestions)
      ensures claim.job in jobs && Online(environments, jobs[claim.job].environment) && ingestion !in old(ingestions)
              && !Busy(old(jobs), jobs[claim.job].environment, Some(claim.job)) ==>
                ingestions != old(ingestions) && jobs[claim.job].lease == Some(now + 5 * MINUTE)
      ensures Rest(old(jobs), jobs, claim.job)
      ensures claim.job in jobs ==>
                && jobs[claim.job].environment == old(jobs)[claim.job].environment && jobs[claim.job].attempts == old(jobs)[claim.job].attempts
                && jobs[claim.job].nextAt == old(jobs)[claim.job].nextAt
      ensures Valid()
    {
      hide Sound;
      SubmittedKeepsSound(Contents(), claim, ingestion, now);
      if claim.job !in jobs {
        return;
      }
      var job := jobs[claim.job];
      if job.environment !in environments || environments[job.environment].connection != Connected {
        jobs := jobs[claim.job := job.(status := Cancelled)];
        return;
      }
      if ingestion in ingestions || Busy(jobs, job.environment, Some(claim.job)) {
        return;
      }
      ingestions := ingestions[ingestion := Ingestion(job.environment, Pending)];
      jobs := jobs[claim.job := job.(status := Ingesting, ingestion := Some(ingestion), lease := Some(now + LEASE))];
    }

    method Process(ingestion: string, valid: bool, giveUp: bool)
      requires Valid()
      modifies `environments, `ingestions
      ensures Contents() == Processed(old(Contents()), ingestion, valid, giveUp)
      ensures ingestion in old(ingestions) && old(ingestions)[ingestion].status != Pending ==> Contents() == old(Contents())
      ensures ingestions.Keys == old(ingestions).Keys && forall i :: i in ingestions && i != ingestion ==> ingestions[i] == old(ingestions)[i]
      ensures ingestion in ingestions && old(ingestions)[ingestion].status == Pending ==>
                var e := ingestions[ingestion].environment;
                var live := valid && e in old(environments) && old(environments)[e].source == Live;
                && e == old(ingestions)[ingestion].environment
                && (ingestions[ingestion].status == Ingested <==> live) && (environments != old(environments) <==> live)
                && (ingestions[ingestion].status == Rejected <==> !live && giveUp)
      ensures environments != old(environments) ==>
                && ingestion in ingestions && ingestions[ingestion].status == Ingested
                && var id := ingestions[ingestion].environment;
                   && id in environments && environments[id].source == Live
                   && environments == old(environments)[id := environments[id]] && environments[id].applied == old(environments)[id].applied + 1
      ensures Valid()
    {
      hide Sound;
      ProcessedKeepsSound(Contents(), ingestion, valid, giveUp);
      if ingestion !in ingestions || ingestions[ingestion].status != Pending {
        return;
      }
      var id := ingestions[ingestion].environment;
      if valid && id in environments && environments[id].source == Live {
        environments := environments[id := environments[id].(applied := environments[id].applied + 1)];
        ingestions := ingestions[ingestion := ingestions[ingestion].(status := Ingested)];
      } else if giveUp {
        ingestions := ingestions[ingestion := ingestions[ingestion].(status := Rejected)];
      }
    }

    /** The first statement of finalizeOne, outside its transaction. */
    method KeepAlive(now: int)
      requires Valid()
      modifies `jobs
      ensures jobs.Keys == old(jobs).Keys && forall id :: id in jobs ==> jobs[id] == old(jobs)[id].(lease := jobs[id].lease)
      ensures forall id :: id in jobs ==>
                var waits := jobs[id].status == Ingesting && exists i :: jobs[id].ingestion == Some(i) && i in ingestions && ingestions[i].status == Pending;
                jobs[id].lease == if waits then Some(now + 5 * MINUTE) else old(jobs)[id].lease
      ensures Valid()
    {
      hide Sound;
      KeepAliveKeepsSound(Contents(), now);
      jobs := map id | id in jobs :: KeptAlive(jobs[id], ingestions, now);
    }

    method FinalizeOne(partial: bool) returns (id: Option<string>)
      requires Valid()
      modifies `jobs
      ensures Valid()
      ensures id.None? ==> jobs == old(jobs) && forall j :: !Final(jobs, ingestions, j)
      ensures id.Some? ==> Final(old(jobs), ingestions, id.value)
      ensures id.Some? ==>
                && Rest(old(jobs), jobs, id.value)
                && Ended(old(jobs)[id.value], jobs[id.value], ingestions[old(jobs)[id.value].ingestion.value], partial)
      ensures id.Some? ==> jobs == old(jobs)[id.value := Finalized(old(jobs)[id.value], ingestions[old(jobs)[id.value].ingestion.value], partial)]
    {
      var ready := set j | j in jobs && Final(jobs, ingestions, j);
      if ready == {} {
        assert forall j :: j in jobs && Final(jobs, ingestions, j) ==> j in ready;
        return None;
      }
      var j :| j in ready;
      var job := jobs[j];
      QuietKeepsSound(Contents(), j, Finalized(job, ingestions[job.ingestion.value], partial));
      var status := Complete;
      if ingestions[job.ingestion.value].status == Rejected {
        status := Failed;
      } else if partial {
        status := Partial;
      }
      jobs := jobs[j := job.(status := status, lease := None)];
      return Some(j);
    }

    /** The selection of enqueueScheduled; each environment is then queued by a
        transaction of its own, which does not look at the connection again. */
    method SelectDue() returns (due: set<string>)
      ensures forall id :: id in due <==> Online(environments, id) && environments[id].scheduled
    {
      due := set id | id in environments && environments[id].connection == Connected && environments[id].scheduled;
    }

    method Enqueue(environment: string, job: string, now: int)
      requires Valid() && environment in environments
      modifies `jobs
      ensures Contents() == Added(old(Contents()), environment, job, now)
      ensures JobAdded(old(jobs), jobs, environment, job, now)
      ensures job !in old(jobs) ==> Busy(jobs, environment, None)
      ensures Valid()
    {
      hide Sound;
      AddedKeepsSound(Contents(), environment, job, now);
      if job !in jobs && !Busy(jobs, environment, None) {
        jobs := jobs[job := Job(environment, Queued, 0, now, None, None)];
        assert jobs[job].environment == environment && Active(jobs[job]);
      }
    }

    /** createEnvironmentScan: an active job is returned instead of a new one. */
    method RequestScan(environment: string, job: string, now: int) returns (accepted: bool)
      requires Valid()
      modifies `jobs
      ensures accepted <==> environment in environments && environments[environment].connection == Connected
      ensures Contents() == if accepted then Added(old(Contents()), environment, job, now) else old(Contents())
      ensures if accepted then JobAdded(old(jobs), jobs, environment, job, now) else jobs == old(jobs)
      ensures accepted && job !in old(jobs) ==> Busy(jobs, environment, None)
      ensures Valid()
    {
      hide Sound;
      if environment !in environments || environments[environment].connection != Connected {
        return false;
      }
      Enqueue(environment, job, now);
      return true;
    }

    /** verifyEnvironment; `accepted` is the answer of the provider. */
    method Verify(id: string, accepted: bool, job: string, now: int)
      requires Valid()
      modifies `environments, `jobs
      ensures Contents() == Verified(old(Contents()), id, accepted, job, now)
      ensures Online(environments, id) && !Online(old(environments), id) ==>
                && accepted && environments[id].source == Live && job in jobs && jobs[job].environment == id && Active(jobs[job])
      ensures jobs != old(jobs) ==> Online(environments, id)
      ensures VerifiedFrom(old(Contents()), id, accepted, job, now, Contents())
      ensures Valid()
    {
      hide Sound, VerifiedFrom;
      VerifiedKeepsSound(Contents(), id, accepted, job, now);
      if id !in environments || (environments[id].connection != SetupPending && environments[id].connection != AuthError) {
        VerifiedIs(old(Contents()), id, accepted, job, now);
        return;
      }
      if !accepted {
        environments := environments[id := environments[id].(connection := AuthError)];
        VerifiedIs(old(Contents()), id, accepted, job, now);
        return;
      }
      if job in jobs || Busy(jobs, id, None) {
        VerifiedIs(old(Contents()), id, accepted, job, now);
        return;
      }
      environments := environments[id := environments[id].(source := Live)];
      environments := environments[id := environments[id].(connection := Connected)];
      jobs := jobs[job := Job(id, Queued, 0, now, None, None)];
      VerifiedIs(old(Contents()), id, accepted, job, now);
    }

    method Reschedule(id: string, scheduled: bool)
      requires Valid()
      modifies `environments
      ensures Contents() == Rescheduled(old(Contents()), id, scheduled)
      ensures environments.Keys == old(environments).Keys && forall e :: e in environments && e != id ==> environments[e] == old(environments)[e]
      ensures id in environments ==>
                && environments[id] == old(environments)[id].(scheduled := environments[id].scheduled)
                && environments[id].scheduled == if environments[id].connection == Disconnected then old(environments)[id].scheduled else scheduled
      ensures Valid()
    {
      if id in environments && environments[id].connection != Disconnected {
        RescheduledKeepsSound(Contents(), id, scheduled);
        environments := environments[id := environments[id].(scheduled := scheduled)];
      }
    }

    /** An administrator revokes the source while the environment stays connected. */
    method RevokeSource(id: string)
      requires Valid()
      modifies `environments
      ensures Contents() == Cut(old(Contents()), id)
      ensures environments.Keys == old(environments).Keys && forall e :: e in environments && e != id ==> environments[e] == old(environments)[e]
      ensures id in environments ==>
                && environments[id] == old(environments)[id].(source := environments[id].source)
                && environments[id].source == if old(environments)[id].source == Live then Revoked else old(environments)[id].source
      ensures Valid()
    {
      if id in environments && environments[id].source == Live {
        CutKeepsSound(Contents(), id);
        environments := environments[id := environments[id].(source := Revoked)];
      }
    }

    method Disconnect(id: string) returns (found: bool)
      requires Valid()
      modifies `environments, `jobs
      ensures Contents() == Parted(old(Contents()), id)
      ensures PartedFrom(old(Contents()), id, found, Contents())
      ensures Valid()
    {
      hide Sound, PartedFrom;
      PartedKeepsSound(Contents(), id);
      if id !in environments || environments[id].connection == Disconnected {
        PartedIs(Contents(), id);
        return false;
      }
      environments := environments[id := environments[id].(connection := Disconnected, scheduled := false)];
      jobs := map j | j in jobs :: if jobs[j].environment == id && Active(jobs[j]) then jobs[j].(status := Cancelled) else jobs[j];
      if environments[id].source != Absent {
        environments := environments[id := environments[id].(source := Revoked)];
      }
      PartedIs(old(Contents()), id);
      return true;
    }
  }

  lemma RecoveredAttempts(was: Job, job: Job, now: int)
    requires RecoveredTo(was, job, now)
    ensures job.attempts == was.attempts && job.environment == was.environment
  {
  }

  lemma RecoveredAt(jobs: Jobs, id: string, now: int)
    requires id in Recover(jobs, now)
    ensures id in jobs && Recover(jobs, now)[id] == Recovered(jobs[id], now)
  {
  }
}
