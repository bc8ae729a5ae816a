/** Runs of the cloud scan queue: requests and any number of workers, interleaved. */
module CloudRuns {
  import opened Options
  import opened CloudQueue

  /** A step is one transaction, or the loss of a worker. */
  datatype Step =
    | Create(at: int, environment: string, scheduled: bool)
    | Verify(at: int, environment: string, accepted: bool, job: string)
    | Request(at: int, environment: string, job: string)
    | Select(at: int, environment: string)
    | Enqueue(at: int, environment: string, job: string)
    | Take(at: int, worker: nat, job: string)
    | Beat(at: int, worker: nat)
    | Fail(at: int, worker: nat, retryable: bool, retryAfter: int)
    | Abandon(at: int, worker: nat)
    | Submit(at: int, worker: nat, ingestion: string)
    | Crash(at: int, worker: nat)
    | Process(at: int, ingestion: string, valid: bool, giveUp: bool)
    | KeepAlive(at: int)
    | Finalize(at: int, job: string, partial: bool)
    | Disconnect(at: int, environment: string)
    | Reschedule(at: int, environment: string, scheduled: bool)
    | RevokeSource(at: int, environment: string)

  /** A worker's claim, and whether the lease of its job was recovered since. */
  datatype Held = Held(claim: Claim, recovered: bool)

  /** `due` are the environments a scheduler has selected and not yet queued; `claims`
      counts the claims of every job. */
  datatype State = State(t: Tables, held: map<nat, Held>, due: set<string>, claims: map<string, nat>, clock: int)

  const EMPTY := State(Tables(map[], map[], map[]), map[], {}, map[], 0)

  predicate Writes(step: Step) { step.Beat? || step.Fail? || step.Abandon? || step.Submit? }

  predicate Enabled(st: State, step: Step) {
    && st.clock <= step.at
    && (step.Create? ==> step.environment !in st.t.environments)
    && (step.Select? ==> Online(st.t.environments, step.environment) && st.t.environments[step.environment].scheduled)
    && (step.Enqueue? ==> step.environment in st.due)
    && (step.Take? ==> step.worker !in st.held && step.job in st.t.jobs && Ready(st.t.environments, Recovered(st.t.jobs[step.job], step.at), step.at))
    && (Writes(step) || step.Crash? ==> step.worker in st.held)
    && (step.Finalize? ==> Final(st.t.jobs, st.t.ingestions, step.job))
  }

  function TablesAfter(st: State, step: Step): Tables
    requires Enabled(st, step)
  {
    var t := st.t;
    match step
    case Create(_, id, scheduled) => t.(environments := t.environments[id := Environment(SetupPending, scheduled, Absent, 0)])
    case Verify(at, id, accepted, job) => Verified(t, id, accepted, job, at)
    case Request(at, id, job) => if Online(t.environments, id) then Added(t, id, job, at) else t
    case Select(_, _) => t
    case Enqueue(at, id, job) => Added(t, id, job, at)
    case Take(at, _, job) => t.(jobs := Recover(t.jobs, at)[job := Taken(Recovered(t.jobs[job], at), at)])
    case Beat(at, w) =>
      var id := st.held[w].claim.job;
      t.(jobs := if id in t.jobs then t.jobs[id := Beaten(t.jobs[id], at)] else t.jobs)
    case Fail(at, w, retryable, retryAfter) => t.(jobs := WithRetry(t.jobs, st.held[w].claim, at, retryable, retryAfter))
    case Abandon(_, w) =>
      var id := st.held[w].claim.job;
      t.(jobs := if id in t.jobs then t.jobs[id := Abandoned(t.jobs[id])] else t.jobs)
    case Submit(at, w, ingestion) => Submitted(t, st.held[w].claim, ingestion, at)
    case Crash(_, _) => t
    case Process(_, ingestion, valid, giveUp) => Processed(t, ingestion, valid, giveUp)
    case KeepAlive(at) => t.(jobs := map id | id in t.jobs :: KeptAlive(t.jobs[id], t.ingestions, at))
    case Finalize(_, job, partial) => t.(jobs := t.jobs[job := Finalized(t.jobs[job], t.ingestions[t.jobs[job].ingestion.value], partial)])
    case Disconnect(_, id) => Parted(t, id)
    case Reschedule(_, id, scheduled) => Rescheduled(t, id, scheduled)
    case RevokeSource(_, id) => Cut(t, id)
  }

  function Marked(h: Held, jobs: Jobs, at: int): Held {
    if h.claim.job in jobs && LeaseOver(jobs[h.claim.job], at) then h.(recovered := true) else h
  }

  function HeldAfter(st: State, step: Step): map<nat, Held>
    requires Enabled(st, step)
  {
    if step.Take? then
      (map w | w in st.held :: Marked(st.held[w], st.t.jobs, step.at))
        [step.worker := Held(Claim(step.job, st.t.jobs[step.job].attempts), false)]
    else if (Writes(step) && !step.Beat?) || step.Crash? then st.held - {step.worker}
    else st.held
  }

  function ClaimsOf(claims: map<string, nat>, job: string): nat {
    if job in claims then claims[job] else 0
  }

  function Apply(st: State, step: Step): State {
    if !Enabled(st, step) then st else
    State(TablesAfter(st, step), HeldAfter(st, step),
          if step.Select? then st.due + {step.environment} else if step.Enqueue? then st.due - {step.environment} else st.due,
          if step.Take? then st.claims[step.job := ClaimsOf(st.claims, step.job) + 1] else st.claims,
          step.at)
  }

  function Run(steps: seq<Step>): State {
    if steps == [] then EMPTY else Apply(Run(steps[..|steps| - 1]), steps[|steps| - 1])
  }

  // ----- One active job -----

  lemma StepSound(st: State, step: Step)
    requires Sound(st.t)
    ensures Sound(Apply(st, step).t)
  {
    hide Sound, Verified, Added, WithRetry, Submitted, Processed, Parted, Recover, KeptAlive;
    if Enabled(st, step) {
      var t := st.t;
      match step
      case Create(_, id, scheduled) => EnvironmentKeepsSound(t, id, Environment(SetupPending, scheduled, Absent, 0));
      case Verify(at, id, accepted, job) => VerifiedKeepsSound(t, id, accepted, job, at);
      case Request(at, id, job) => AddedKeepsSound(t, id, job, at);
      case Select(_, _) =>
      case Enqueue(at, id, job) => AddedKeepsSound(t, id, job, at);
      case Take(at, _, job) => ClaimKeepsSound(t, job, at);
      case Beat(at, w) =>
        if st.held[w].claim.job in t.jobs { QuietKeepsSound(t, st.held[w].claim.job, Beaten(t.jobs[st.held[w].claim.job], at)); }
      case Fail(at, w, retryable, retryAfter) => RetryKeepsSound(t, st.held[w].claim, at, retryable, retryAfter);
      case Abandon(_, w) =>
        if st.held[w].claim.job in t.jobs { QuietKeepsSound(t, st.held[w].claim.job, Abandoned(t.jobs[st.held[w].claim.job])); }
      case Submit(at, w, ingestion) => SubmittedKeepsSound(t, st.held[w].claim, ingestion, at);
      case Crash(_, _) =>
      case Process(_, ingestion, valid, giveUp) => ProcessedKeepsSound(t, ingestion, valid, giveUp);
      case KeepAlive(at) => KeepAliveKeepsSound(t, at);
      case Finalize(_, job, partial) => QuietKeepsSound(t, job, Finalized(t.jobs[job], t.ingestions[t.jobs[job].ingestion.value], partial));
      case Disconnect(_, id) => PartedKeepsSound(t, id);
      case Reschedule(_, id, scheduled) => RescheduledKeepsSound(t, id, scheduled);
      case RevokeSource(_, id) => CutKeepsSound(t, id);
    }
  }

  /** In every run an environment has at most one active job, and a disconnected one has no
      live source. */
  lemma {:induction false} SoundAlways(steps: seq<Step>)
    ensures Sound(Run(steps).t)
  {
    hide Apply;
    if steps == [] {
    } else {
      SoundAlways(steps[..|steps| - 1]);
      StepSound(Run(steps[..|steps| - 1]), steps[|steps| - 1]);
    }
  }

  // ----- After a disconnect -----

  ghost predicate Gone(t: Tables, e: string) {
    e in t.environments && t.environments[e].connection == CloudQueue.Disconnected && t.environments[e].source != Live
  }

  function IngestionsOf(t: Tables, e: string): set<string> {
    set id | id in t.ingestions && t.ingestions[id].environment == e
  }

  lemma StepGone(st: State, step: Step, e: string)
    requires Gone(st.t, e)
    ensures Gone(Apply(st, step).t, e)
    ensures Apply(st, step).t.environments[e].applied == st.t.environments[e].applied
  {
  }

  lemma NothingQueued(st: State, step: Step, e: string)
    requires Gone(st.t, e)
    ensures IngestionsOf(Apply(st, step).t, e) == IngestionsOf(st.t, e)
  {
  }

  lemma DisconnectCuts(st: State, step: Step)
    requires step.Disconnect? && Enabled(st, step) && step.environment in st.t.environments && Severed(st.t.environments, step.environment)
    ensures Gone(Apply(st, step).t, step.environment)
  {
  }

  lemma {:induction false} StaysGone(steps: seq<Step>, i: nat, k: nat, e: string)
    requires i < k <= |steps| && steps[i].Disconnect? && steps[i].environment == e
    requires Enabled(Run(steps[..i]), steps[i]) && e in Run(steps[..i]).t.environments
    requires Severed(Run(steps[..i]).t.environments, e)
    ensures Gone(Run(steps[..k]).t, e)
  {
    hide Apply;
    assert steps[..k][..k - 1] == steps[..k - 1];
    if i == k - 1 {
      DisconnectCuts(Run(steps[..i]), steps[i]);
    } else {
      StaysGone(steps, i, k - 1, e);
      StepGone(Run(steps[..k - 1]), steps[k - 1], e);
    }
  }

  /** Once disconnectEnvironment has committed, whatever the workers still hold: no later
      step claims a job of the environment, queues an ingestion for it, or applies a
      snapshot of its source. */
  lemma AfterDisconnect(steps: seq<Step>, i: nat, k: nat, e: string)
    requires i < k < |steps| && steps[i].Disconnect? && steps[i].environment == e
    requires Enabled(Run(steps[..i]), steps[i]) && e in Run(steps[..i]).t.environments
    ensures var st, next := Run(steps[..k]), Run(steps[..k + 1]);
      && Gone(st.t, e) && Gone(next.t, e)
      && (steps[k].Take? && Enabled(st, steps[k]) ==> st.t.jobs[steps[k].job].environment != e)
      && IngestionsOf(next.t, e) == IngestionsOf(st.t, e)
      && next.t.environments[e].applied == st.t.environments[e].applied
  {
    SoundAlways(steps[..i]);
    assert Severed(Run(steps[..i]).t.environments, e);
    StaysGone(steps, i, k, e);
    assert steps[..k + 1][..k] == steps[..k];
    StepGone(Run(steps[..k]), steps[k], e);
    NothingQueued(Run(steps[..k]), steps[k], e);
  }

  // ----- Results -----

  function IngestedFor(t: Tables, e: string): set<string> {
    set i | i in t.ingestions && t.ingestions[i].environment == e && t.ingestions[i].status == Ingested
  }

  function AppliedFor(t: Tables, e: string): nat {
    if e in t.environments then t.environments[e].applied else 0
  }

  predicate Counts(t: Tables, e: string) {
    AppliedFor(t, e) == |IngestedFor(t, e)|
  }

  predicate Honest(t: Tables, id: string) {
    id in t.jobs && (t.jobs[id].status == Complete || t.jobs[id].status == Partial) ==>
      && t.jobs[id].ingestion.Some? && t.jobs[id].ingestion.value in t.ingestions
      && t.ingestions[t.jobs[id].ingestion.value].status == Ingested
  }

  lemma StepHonest(st: State, step: Step, id: string)
    requires Honest(st.t, id)
    ensures Honest(Apply(st, step).t, id)
  {
  }

  lemma StepIngested(st: State, step: Step, e: string)
    ensures var before, after := IngestedFor(st.t, e), IngestedFor(Apply(st, step).t, e);
      || (after == before && AppliedFor(Apply(st, step).t, e) == AppliedFor(st.t, e))
      || (step.Process? && step.ingestion !in before && after == before + {step.ingestion}
          && AppliedFor(Apply(st, step).t, e) == AppliedFor(st.t, e) + 1)
  {
  }

  /** In every run the snapshots applied for an environment are its ingested ones, each
      applied once; and a job that shows as complete or partial had its snapshot applied. */
  lemma {:induction false} ResultsAreApplied(steps: seq<Step>, e: string, id: string)
    ensures Counts(Run(steps).t, e) && Honest(Run(steps).t, id)
  {
    hide Apply, IngestedFor, AppliedFor, Honest;
    if steps == [] {
      NoResults(e, id);
    } else {
      var st, step := Run(steps[..|steps| - 1]), steps[|steps| - 1];
      ResultsAreApplied(steps[..|steps| - 1], e, id);
      StepHonest(st, step, id);
      StepIngested(st, step, e);
    }
  }

  lemma NoResults(e: string, id: string)
    ensures Counts(EMPTY.t, e) && Honest(EMPTY.t, id)
  {
  }

  // ----- What is shown as complete or partial -----

  ghost predicate Shown(st: State, id: string, status: Status) {
    id in st.t.jobs && st.t.jobs[id].status == status
  }

  /** A job comes to be shown so by its finalization only, which saw whether the scan was
      partial. */
  lemma StepShown(st: State, step: Step, id: string, partial: bool)
    requires !Shown(st, id, if partial then Partial else Complete) && Shown(Apply(st, step), id, if partial then Partial else Complete)
    ensures step.Finalize? && Enabled(st, step) && step.job == id && step.partial == partial
  {
  }

  lemma {:induction false} FinalizedAs(steps: seq<Step>, id: string, partial: bool)
    requires Shown(Run(steps), id, if partial then Partial else Complete)
    ensures exists k :: 0 <= k < |steps| && FinalizedAt(steps, k, id, partial)
  {
    hide Apply;
    if steps == [] {
    } else {
      var init := steps[..|steps| - 1];
      if Shown(Run(init), id, if partial then Partial else Complete) {
        FinalizedAs(init, id, partial);
        var k :| 0 <= k < |init| && FinalizedAt(init, k, id, partial);
        assert steps[..k] == init[..k];
        assert FinalizedAt(steps, k, id, partial);
      } else {
        StepShown(Run(init), steps[|steps| - 1], id, partial);
        assert FinalizedAt(steps, |steps| - 1, id, partial);
      }
    }
  }

  /** Step `k` finalizes the job, and its ingestion was not rejected. */
  ghost predicate FinalizedAt(steps: seq<Step>, k: nat, id: string, partial: bool) {
    k < |steps| && steps[k].Finalize? && steps[k].job == id && steps[k].partial == partial && Enabled(Run(steps[..k]), steps[k])
  }

  // ----- Attempts -----

  /** In every run the attempts of a job are the number of its claims. */
  ghost predicate Counted(st: State) {
    forall id :: id in st.t.jobs ==> st.t.jobs[id].attempts == ClaimsOf(st.claims, id)
  }

  ghost predicate Known(st: State) {
    forall id :: id in st.claims ==> id in st.t.jobs
  }

  lemma StepKnown(st: State, step: Step)
    requires Known(st)
    ensures Known(Apply(st, step))
  {
  }

  lemma CountKept(st: State, step: Step, id: string)
    requires id in Apply(st, step).t.jobs
    requires if id in st.t.jobs then st.t.jobs[id].attempts == ClaimsOf(st.claims, id) else id !in st.claims
    ensures Apply(st, step).t.jobs[id].attempts == ClaimsOf(Apply(st, step).claims, id)
  {
  }

  lemma StepCounted(st: State, step: Step)
    requires Counted(st) && Known(st)
    ensures Counted(Apply(st, step))
  {
    hide Apply;
    forall id | id in Apply(st, step).t.jobs
      ensures Apply(st, step).t.jobs[id].attempts == ClaimsOf(Apply(st, step).claims, id)
    {
      CountKept(st, step, id);
    }
  }

  lemma {:induction false} AttemptsAreClaims(steps: seq<Step>)
    ensures Counted(Run(steps)) && Known(Run(steps))
  {
    if steps == [] {
    } else {
      AttemptsAreClaims(steps[..|steps| - 1]);
      StepKnown(Run(steps[..|steps| - 1]), steps[|steps| - 1]);
      StepCounted(Run(steps[..|steps| - 1]), steps[|steps| - 1]);
    }
  }

  /** No worker writes after the lease of its job was recovered. */
  predicate Punctual(st: State, step: Step) {
    Writes(step) && Enabled(st, step) ==> !st.held[step.worker].recovered
  }

  ghost predicate PunctualRun(steps: seq<Step>) {
    steps == [] || (PunctualRun(steps[..|steps| - 1]) && Punctual(Run(steps[..|steps| - 1]), steps[|steps| - 1]))
  }

  /** The state of a job that a worker holds and whose lease was not recovered. */
  predicate Owned(t: Tables, claim: Claim) {
    && claim.job in t.jobs && t.jobs[claim.job].attempts == claim.attempts + 1
    && (t.jobs[claim.job].status == Running || t.jobs[claim.job].status == Cancelled)
  }

  predicate Rival(st: State, w: nat, v: nat) {
    w in st.held && v in st.held && w != v && !st.held[w].recovered && !st.held[v].recovered && st.held[w].claim.job == st.held[v].claim.job
  }

  predicate Bounded(job: Job) {
    job.attempts <= MAX_ATTEMPTS && (job.status == Queued ==> job.attempts < MAX_ATTEMPTS)
  }

  ghost predicate Healthy(st: State) {
    && (forall w :: w in st.held && !st.held[w].recovered ==> Owned(st.t, st.held[w].claim))
    && (forall w, v :: !Rival(st, w, v))
    && (forall id :: id in st.t.jobs ==> Bounded(st.t.jobs[id]))
  }

  /** A running or cancelled job stays that, with its attempts, unless its lease is
      recovered or its holder writes. */
  lemma OwnedKept(st: State, step: Step, claim: Claim)
    requires Owned(st.t, claim)
    requires step.Take? && Enabled(st, step) ==> !LeaseOver(st.t.jobs[claim.job], step.at)
    requires Writes(step) && Enabled(st, step) ==> st.held[step.worker].claim.job != claim.job || step.Beat?
    ensures Owned(Apply(st, step).t, claim)
  {
  }

  lemma StepOwned(st: State, step: Step, w: nat)
    requires Healthy(st) && Punctual(st, step)
    requires w in Apply(st, step).held && !Apply(st, step).held[w].recovered
    ensures Owned(Apply(st, step).t, Apply(st, step).held[w].claim)
  {
    hide TablesAfter;
    if w in st.held && Apply(st, step).held[w] == st.held[w] {
      assert Writes(step) ==> !Rival(st, w, step.worker);
      OwnedKept(st, step, st.held[w].claim);
    } else {
      TakenOwned(st, step);
    }
  }

  lemma TakenOwned(st: State, step: Step)
    requires step.Take? && Enabled(st, step)
    ensures Owned(Apply(st, step).t, Apply(st, step).held[step.worker].claim)
  {
  }

  lemma StepRival(st: State, step: Step, w: nat, v: nat)
    requires Healthy(st) && Punctual(st, step)
    ensures !Rival(Apply(st, step), w, v)
  {
    hide TablesAfter;
    assert w in st.held && !st.held[w].recovered ==> Owned(st.t, st.held[w].claim);
    assert v in st.held && !st.held[v].recovered ==> Owned(st.t, st.held[v].claim);
    assert !Rival(st, w, v);
  }

  lemma StepBounded(st: State, step: Step, id: string)
    requires Healthy(st) && Punctual(st, step) && id in Apply(st, step).t.jobs
    ensures Bounded(Apply(st, step).t.jobs[id])
  {
    if Writes(step) && Enabled(st, step) {
      assert Owned(st.t, st.held[step.worker].claim);
    }
  }

  lemma StepHealthy(st: State, step: Step)
    requires Healthy(st) && Punctual(st, step)
    ensures Healthy(Apply(st, step))
  {
    hide Apply, Owned, Rival, Bounded, Punctual;
    var next := Apply(st, step);
    forall w | w in next.held && !next.held[w].recovered ensures Owned(next.t, next.held[w].claim) { StepOwned(st, step, w); }
    forall w, v ensures !Rival(next, w, v) { StepRival(st, step, w, v); }
    forall id | id in next.t.jobs ensures Bounded(next.t.jobs[id]) { StepBounded(st, step, id); }
  }

  lemma {:induction false} PunctualHealthy(steps: seq<Step>)
    requires PunctualRun(steps)
    ensures Healthy(Run(steps))
  {
    if steps == [] {
    } else {
      PunctualHealthy(steps[..|steps| - 1]);
      StepHealthy(Run(steps[..|steps| - 1]), steps[|steps| - 1]);
    }
  }

  /** If no worker writes after its lease was recovered, a job is claimed at most five
      times, and one that is queued has an attempt left. */
  lemma AtMostFiveClaims(steps: seq<Step>, id: string)
    requires PunctualRun(steps) && id in Run(steps).t.jobs
    ensures ClaimsOf(Run(steps).claims, id) <= MAX_ATTEMPTS
    ensures Run(steps).t.jobs[id].status == Queued ==> ClaimsOf(Run(steps).claims, id) < MAX_ATTEMPTS
  {
    PunctualHealthy(steps);
    AttemptsAreClaims(steps);
    assert Bounded(Run(steps).t.jobs[id]);
  }

  // ----- Late writes -----

  /** A job that can be claimed once too often. */
  predicate Overdrawn(job: Job) { job.status == Queued && job.attempts >= MAX_ATTEMPTS }

  /** A step overdraws a job exactly when it reports a retryable failure of an early
      claim although the job has used up its attempts by now. */
  lemma OverdrawnIff(st: State, step: Step, id: string)
    requires id in st.t.jobs && !Overdrawn(st.t.jobs[id])
    ensures id in Apply(st, step).t.jobs
    ensures Overdrawn(Apply(st, step).t.jobs[id]) <==>
              && step.Fail? && Enabled(st, step) && step.retryable
              && st.held[step.worker].claim.job == id
              && st.held[step.worker].claim.attempts + 1 < MAX_ATTEMPTS <= st.t.jobs[id].attempts
              && !Busy(st.t.jobs, st.t.jobs[id].environment, Some(id))
  {
  }

  /** Workers 0, 1, ... claim the one job of environment "e", each after the lease of the
      one before. */
  function Claims(k: nat): seq<Step> {
    if k == 0 then [Create(0, "e", true), Verify(0, "e", true, "j")]
    else Claims(k - 1) + [Take(301 * (k - 1), k - 1, "j")]
  }

  /** The environment "e" is the only connected one. */
  ghost predicate Alone(st: State) {
    (forall id :: Online(st.t.environments, id) <==> id == "e") && st.due <= {"e"}
  }

  ghost predicate AfterClaims(st: State, k: nat) {
    && Alone(st)
    && st.clock <= 301 * k && "e" in st.t.environments && st.t.environments["e"].connection == Connected
    && "j" in st.t.jobs && st.t.jobs["j"].environment == "e" && st.t.jobs["j"].attempts == k == ClaimsOf(st.claims, "j")
    && (forall id :: id in st.t.jobs ==> id == "j")
    && (forall w :: w in st.held ==> w < k)
    && (if k == 0 then st.t.jobs["j"].status == Queued && st.t.jobs["j"].nextAt <= 0
        else && st.t.jobs["j"].status == Running && st.t.jobs["j"].lease == Some(301 * k - 1)
             && 0 in st.held && st.held[0].claim == Claim("j", 0))
  }

  lemma OneMoreClaim(st: State, k: nat)
    requires AfterClaims(st, k) && k < MAX_ATTEMPTS
    ensures AfterClaims(Apply(st, Take(301 * k, k, "j")), k + 1)
  {
    assert k !in st.held;
    assert Ready(st.t.environments, Recovered(st.t.jobs["j"], 301 * k), 301 * k);
    assert Enabled(st, Take(301 * k, k, "j"));
  }

  lemma FirstClaim()
    ensures AfterClaims(Run(Claims(0)), 0)
  {
    assert Claims(0)[..1][..0] == [];
    assert Claims(0)[..1] == [Create(0, "e", true)];
    assert Run(Claims(0)[..1]) == Apply(EMPTY, Create(0, "e", true));
    assert !Busy(map[], "e", None);
  }

  lemma NextClaim(k: nat)
    requires k > 0
    ensures Run(Claims(k)) == Apply(Run(Claims(k - 1)), Take(301 * (k - 1), k - 1, "j"))
  {
    hide Apply;
    assert Claims(k)[..|Claims(k - 1)|] == Claims(k - 1);
  }

  lemma {:induction false} ClaimsRun(k: nat)
    requires k <= MAX_ATTEMPTS
    ensures AfterClaims(Run(Claims(k)), k)
  {
    hide *;
    if k == 0 {
      FirstClaim();
    } else {
      ClaimsRun(k - 1);
      NextClaim(k);
      OneMoreClaim(Run(Claims(k - 1)), k - 1);
    }
  }

  lemma LateReport(st: State)
    requires AfterClaims(st, 5)
    ensures var next := Apply(Apply(st, Fail(1505, 0, true, 1)), Take(1506, 5, "j")); ClaimsOf(next.claims, "j") == 6
  {
    var step := Fail(1505, 0, true, 1);
    assert Enabled(st, step);
    assert !Busy(st.t.jobs, "e", Some("j"));
    var mid := Apply(st, step);
    assert mid.t.jobs["j"].status == Queued && mid.t.jobs["j"].nextAt == 1506;
    assert 5 !in mid.held;
    assert Enabled(mid, Take(1506, 5, "j"));
  }

  lemma RunTwo(steps: seq<Step>, a: Step, b: Step)
    ensures Run(steps + [a, b]) == Apply(Apply(Run(steps), a), b)
  {
    hide Apply;
    assert (steps + [a, b])[..|steps| + 1] == steps + [a];
    assert (steps + [a])[..|steps|] == steps;
  }

  /** So without the punctuality the bound is false: the first of five workers reports a
      retryable failure last, and the job is claimed a sixth time. */
  lemma SixthClaim()
    ensures ClaimsOf(Run(Claims(5) + [Fail(1505, 0, true, 1), Take(1506, 5, "j")]).claims, "j") == 6
  {
    hide Run, Claims, Apply, AfterClaims, ClaimsOf;
    ClaimsRun(5);
    LateReport(Run(Claims(5)));
    RunTwo(Claims(5), Fail(1505, 0, true, 1), Take(1506, 5, "j"));
  }

  // ----- Jobs out of attempts -----

  /** A running job with five attempts whose lease is over. */
  predicate Exhausted(job: Job, now: int) {
    job.status == Running && LeaseOver(job, now) && job.attempts >= MAX_ATTEMPTS
  }

  /** A job out of attempts whose workers are gone is ended by exactly two kinds of step:
      the disconnection of its environment, or the claim of some other job. */
  lemma ExhaustedIff(st: State, step: Step, id: string)
    requires id in st.t.jobs && Exhausted(st.t.jobs[id], st.clock) && st.t.jobs[id].environment in st.t.environments
    requires forall w :: w in st.held ==> st.held[w].claim.job != id
    ensures id in Apply(st, step).t.jobs
    ensures Apply(st, step).t.jobs[id] != st.t.jobs[id] <==>
              && Enabled(st, step)
              && (step.Take? || (step.Disconnect? && step.environment == st.t.jobs[id].environment
                                 && st.t.environments[step.environment].connection != CloudQueue.Disconnected))
  {
  }

  /** Until then its environment gets no new job. */
  lemma ExhaustedBlocks(st: State, step: Step, id: string, added: string)
    requires id in st.t.jobs && Active(st.t.jobs[id])
    requires added in Apply(st, step).t.jobs && added !in st.t.jobs
    ensures Apply(st, step).t.jobs[added].environment != st.t.jobs[id].environment
  {
  }

  /** The five claims, and then the workers crash. */
  function Crashes(k: nat): seq<Step> {
    if k == 0 then Claims(5) else Crashes(k - 1) + [Crash(1505, k - 1)]
  }

  predicate Spent(job: Job) {
    job.environment == "e" && job.status == Running && job.attempts == 5 && job.lease == Some(1504)
  }

  lemma {:induction false} CrashesRun(k: nat)
    requires k <= 5
    ensures var st := Run(Crashes(k)); Left(st, k) && st.clock <= 1505
  {
    hide Apply, AfterClaims, Left;
    if k == 0 {
      ClaimsRun(5);
      AllClaimed(Run(Claims(5)));
    } else {
      CrashesRun(k - 1);
      assert Crashes(k)[..|Crashes(k - 1)|] == Crashes(k - 1);
      OneMoreCrash(Run(Crashes(k - 1)), k - 1);
    }
  }

  /** Only the used-up job, only its environment, and only workers from `k` on. */
  ghost predicate Left(st: State, k: nat) {
    && Alone(st) && st.t.jobs.Keys == {"j"} && Spent(st.t.jobs["j"])
    && (forall w :: w in st.held ==> k <= w < 5)
  }

  lemma AllClaimed(st: State)
    requires AfterClaims(st, 5)
    ensures Left(st, 0) && st.clock <= 1505
  {
  }

  lemma OneMoreCrash(st: State, k: nat)
    requires Left(st, k) && k < 5 && st.clock <= 1505
    ensures var next := Apply(st, Crash(1505, k)); Left(next, k + 1) && next.clock <= 1505
  {
  }

  /** Only its verification connects an environment, and only its disconnection ends that. */
  lemma OnlineKept(st: State, step: Step, id: string)
    requires !(step.Verify? && step.environment == id)
    ensures Online(Apply(st, step).t.environments, id) <==>
              Online(st.t.environments, id) && !(step.Disconnect? && step.environment == id && Enabled(st, step))
  {
  }

  lemma AloneKept(st: State, step: Step)
    requires Alone(st) && !step.Verify? && !(step.Disconnect? && step.environment == "e")
    ensures Alone(Apply(st, step))
  {
    hide TablesAfter, HeldAfter;
    forall id
      ensures Online(Apply(st, step).t.environments, id) <==> id == "e"
    {
      OnlineKept(st, step, id);
    }
  }

  lemma SpentKept(st: State, step: Step)
    requires Left(st, 5) && 1505 <= st.clock && !step.Verify? && !(step.Disconnect? && step.environment == "e")
    ensures Apply(st, step).t.jobs == st.t.jobs && Apply(st, step).held == st.held
  {
    assert Spent(st.t.jobs["j"]) && Busy(st.t.jobs, "e", None);
    assert step.Take? || Writes(step) || step.Crash? || step.Finalize? ==> !Enabled(st, step);
  }

  lemma StepLeft(st: State, step: Step)
    requires Left(st, 5) && 1505 <= st.clock && !step.Verify? && !(step.Disconnect? && step.environment == "e")
    ensures Left(Apply(st, step), 5) && 1505 <= Apply(st, step).clock
  {
    hide TablesAfter, HeldAfter, Alone;
    AloneKept(st, step);
    SpentKept(st, step);
  }

  /** So the environment can be blocked for good: five claims, five crashes, and from then
      on nothing but its disconnection or the set-up of another environment brings its job
      to an end or gets it another one. */
  lemma BlockedForGood(more: seq<Step>)
    requires forall i :: 0 <= i < |more| ==> !more[i].Verify? && !(more[i].Disconnect? && more[i].environment == "e")
    ensures var st := Run(Crashes(5) + [KeepAlive(1505)] + more);
      && st.t.jobs.Keys == {"j"} && Spent(st.t.jobs["j"]) && Exhausted(st.t.jobs["j"], st.clock) && Online(st.t.environments, "e")
      && st.held == map[]
  {
    hide Apply, Left;
    LeftForGood(more);
    LeftIs(Run(Crashes(5) + [KeepAlive(1505)] + more));
  }

  lemma LeftIs(st: State)
    requires Left(st, 5) && 1505 <= st.clock
    ensures st.t.jobs.Keys == {"j"} && Spent(st.t.jobs["j"]) && Exhausted(st.t.jobs["j"], st.clock) && Online(st.t.environments, "e")
    ensures st.held == map[]
  {
    assert forall w :: w !in st.held;
  }

  lemma {:induction false} LeftForGood(more: seq<Step>)
    requires forall i :: 0 <= i < |more| ==> !more[i].Verify? && !(more[i].Disconnect? && more[i].environment == "e")
    ensures var st := Run(Crashes(5) + [KeepAlive(1505)] + more); Left(st, 5) && 1505 <= st.clock
  {
    hide Apply, Left;
    var start := Crashes(5) + [KeepAlive(1505)];
    if more == [] {
      assert start + more == start && start[..|start| - 1] == Crashes(5);
      CrashesRun(5);
      Waited(Run(Crashes(5)));
    } else {
      var n := |more| - 1;
      LeftForGood(more[..n]);
      assert (start + more)[..|start + more| - 1] == start + more[..n];
      StepLeft(Run(start + more[..n]), more[n]);
    }
  }

  lemma Waited(st: State)
    requires Left(st, 5) && st.clock <= 1505
    ensures Left(Apply(st, KeepAlive(1505)), 5) && Apply(st, KeepAlive(1505)).clock == 1505
  {
  }
}
