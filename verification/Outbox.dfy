/** The PostHog outbox (internal/hub/posthog_worker.go): leased delivery of product
    events by any number of workers that may crash, stall or lose their lease. Times are
    whole seconds of the database clock. */
module Outbox {
  import opened Backoff
  import opened Options
  import opened Sizes

  datatype Status = Pending | Processing | Retry | Delivered | Dead

  datatype Row = Row(status: Status, attempts: nat, nextAt: Option<int>, lease: Option<int>)

  /** What a worker holds after a claim; the lease stays in the table. */
  datatype Claim = Claim(id: string, attempts: nat)

  const MAX_ATTEMPTS := 10
  const LEASE := 60

  // ----- The statements -----

  predicate LeaseOver(row: Row, now: int) {
    row.status == Processing && row.lease.Some? && row.lease.value < now
  }

  /** Out of attempts with its lease over: claimOne moves it to the dead letters. */
  predicate Exhausted(row: Row, now: int) {
    LeaseOver(row, now) && row.attempts >= MAX_ATTEMPTS
  }

  function Buried(row: Row): Row {
    row.(status := Dead, lease := None)
  }

  function Expire(rows: map<string, Row>, now: int): map<string, Row> {
    map id | id in rows :: if Exhausted(rows[id], now) then Buried(rows[id]) else rows[id]
  }

  function Expiring(rows: map<string, Row>, now: int): set<string> {
    set id | id in rows && Exhausted(rows[id], now)
  }

  predicate Eligible(row: Row, now: int) {
    row.attempts < MAX_ATTEMPTS
    && (((row.status == Pending || row.status == Retry) && (row.nextAt.Some? ==> row.nextAt.value <= now)) || LeaseOver(row, now))
  }

  function Taken(row: Row, now: int): Row {
    row.(status := Processing, attempts := row.attempts + 1, lease := Some(now + LEASE))
  }

  function Dropped(row: Row): Row {
    row.(status := Delivered, lease := None)
  }

  function Finished(row: Row, claim: Claim, now: int, delivered: bool): Row {
    if delivered then Dropped(row)
    else if claim.attempts >= MAX_ATTEMPTS then Buried(row)
    else row.(status := Retry, nextAt := Some(now + Delay(claim.attempts, 8)), lease := None)
  }

  predicate Idle(rows: map<string, Row>, now: int) {
    forall id :: id in rows ==> !Eligible(rows[id], now)
  }

  ghost predicate Claimed(was: map<string, Row>, rows: map<string, Row>, claim: Option<Claim>, id: string, now: int, optedOut: set<string>) {
    && id in was && Eligible(was[id], now)
    && (if id in optedOut then
          claim.None? && rows == Expire(was, now)[id := Dropped(was[id])]
        else
          claim == Some(Claim(id, was[id].attempts + 1)) && rows == Expire(was, now)[id := Taken(was[id], now)])
  }

  predicate Limited(row: Row) {
    row.attempts <= MAX_ATTEMPTS && (row.status == Processing <==> row.lease.Some?)
  }

  function DeadOnes(rows: map<string, Row>): set<string> {
    set id | id in rows && rows[id].status == Dead
  }

  /** What a claim is for: an event with an attempt left, whose time has come or whose
      worker has lost it. */
  predicate Due(row: Row, now: int) {
    match row.status
    case Pending => row.attempts < MAX_ATTEMPTS && (row.nextAt.None? || row.nextAt.value <= now)
    case Retry => row.attempts < MAX_ATTEMPTS && (row.nextAt.None? || row.nextAt.value <= now)
    case Processing => row.attempts < MAX_ATTEMPTS && row.lease.Some? && row.lease.value < now
    case Delivered => false
    case Dead => false
  }

  /** An event without an attempt left whose worker has lost it is dead now, and any other
      is as it was. */
  predicate SweptTo(was: Row, row: Row, now: int) {
    if was.status == Processing && was.lease.Some? && was.lease.value < now && was.attempts >= MAX_ATTEMPTS then
      row.status == Dead && row.attempts == was.attempts && row.nextAt == was.nextAt && row.lease.None?
    else row == was
  }

  /** All events but one are swept. */
  ghost predicate OthersSwept(was: map<string, Row>, rows: map<string, Row>, id: string, now: int) {
    rows.Keys == was.Keys && forall other :: other in was && other != id ==> SweptTo(was[other], rows[other], now)
  }

  /** An event that was due is sent no more, with its attempts as they were. */
  ghost predicate DroppedFor(was: map<string, Row>, rows: map<string, Row>, id: string, now: int, optedOut: set<string>) {
    && id in was && id in optedOut && Due(was[id], now) && OthersSwept(was, rows, id, now)
    && rows[id].status == Delivered && rows[id].attempts == was[id].attempts && rows[id].lease.None?
  }

  /** The claimed event is due and its actor has not opted out; it runs for a minute and has
      one attempt more. A call that stores its writes and claims nothing has dropped a due
      event whose actor has opted out, unless none was due. */
  ghost predicate ClaimSays(was: map<string, Row>, rows: map<string, Row>, claim: Option<Claim>, now: int, optedOut: set<string>, stored: bool) {
    && (claim.Some? ==>
          var id := claim.value.id;
          && id !in optedOut && id in was && Due(was[id], now) && OthersSwept(was, rows, id, now)
          && rows[id].status == Processing && rows[id].attempts == was[id].attempts + 1 == claim.value.attempts
          && rows[id].lease == Some(now + 60) && rows[id].nextAt == was[id].nextAt)
    && (claim.None? && (!stored || forall id :: id in was ==> !Due(was[id], now)) ==> rows == was)
    && (claim.None? && stored && (exists id :: id in was && Due(was[id], now)) ==> exists id :: DroppedFor(was, rows, id, now, optedOut))
  }

  lemma ClaimedSays(was: map<string, Row>, rows: map<string, Row>, claim: Option<Claim>, id: string, now: int, optedOut: set<string>, stored: bool)
    requires Claimed(was, rows, claim, id, now, optedOut) && stored
    ensures ClaimSays(was, rows, claim, now, optedOut, stored)
  {
    if claim.None? {
      assert DroppedFor(was, rows, id, now, optedOut);
    }
    assert Due(was[id], now);
  }

  lemma IdleSays(was: map<string, Row>, now: int, optedOut: set<string>, stored: bool)
    requires Idle(was, now) || !stored
    ensures ClaimSays(was, was, None, now, optedOut, stored)
  {
  }

  /** The events, which all worker processes share, and the counters of this one, which
      start at zero with it. */
  class Table {
    var rows: map<string, Row>
    var successes: nat
    var retries: nat
    var deadLetters: nat

    /** No event is taken more than ten times, and the one being processed and no other has
        a lease. */
    ghost predicate Valid()
      reads this
    {
      forall id :: id in rows ==> Limited(rows[id])
    }

    constructor ()
      ensures rows == map[] && successes == retries == deadLetters == 0 && Valid()
    {
      rows := map[];
      successes, retries, deadLetters := 0, 0, 0;
    }

    /** The first statement of claimOne, and the counter that it raises. */
    method Sweep(now: int)
      modifies `rows, `deadLetters
      ensures rows == Expire(old(rows), now) && deadLetters == old(deadLetters) + |Expiring(old(rows), now)|
    {
      var expiring := Expiring(rows, now);
      rows := map id | id in rows :: if id in expiring then Buried(rows[id]) else rows[id];
      deadLetters := deadLetters + |expiring|;
    }

    /** claimOne: SKIP LOCKED lets the query return any eligible event. Without one the
        transaction, and with it the burial of exhausted events, is rolled back, and so it
        is when a statement fails; the counter has been raised by then. */
    method ClaimOne(now: int, optedOut: set<string>, stored: bool) returns (claim: Option<Claim>)
      requires Valid()
      modifies `rows, `deadLetters
      ensures Valid()
      ensures Idle(old(rows), now) || !stored ==> claim.None? && rows == old(rows)
      ensures !Idle(old(rows), now) && stored ==> exists id :: Claimed(old(rows), rows, claim, id, now, optedOut)
      ensures ClaimSays(old(rows), rows, claim, now, optedOut, stored)
      ensures deadLetters == old(deadLetters) + |Expiring(old(rows), now)|
      ensures |DeadOnes(rows)| - |DeadOnes(old(rows))| <= deadLetters - old(deadLetters)
    {
      hide Limited, DeadOnes, ClaimSays, Eligible, Exhausted, Expire, Expiring;
      var was := rows;
      Sweep(now);
      var ready := set id | id in rows && Eligible(rows[id], now);
      EligibleStays(was, now);
      assert forall id :: id in was && Eligible(was[id], now) ==> id in ready;
      if ready == {} || !stored {
        rows := was;
        IdleSays(was, now, optedOut, stored);
        return None;
      }
      var id :| id in ready;
      assert rows[id] == was[id];
      var row := rows[id];
      if id in optedOut {
        rows := rows[id := row.(status := Delivered, lease := None)];
        assert Claimed(was, rows, None, id, now, optedOut);
        ClaimedSays(was, rows, None, id, now, optedOut, stored);
        ClaimKeeps(was, rows, None, id, now, optedOut);
        return None;
      }
      var attempts := row.attempts + 1;
      rows := rows[id := row.(status := Processing, attempts := attempts, lease := Some(now + LEASE))];
      assert Claimed(was, rows, Some(Claim(id, attempts)), id, now, optedOut);
      ClaimedSays(was, rows, Some(Claim(id, attempts)), id, now, optedOut, stored);
      ClaimKeeps(was, rows, Some(Claim(id, attempts)), id, now, optedOut);
      return Some(Claim(id, attempts));
    }

    /** finish: the update names the event only, not the claim. `stored` tells whether the
        statement succeeds; only the acknowledgement of a delivery looks at that. */
    method Finish(claim: Claim, now: int, delivered: bool, stored: bool)
      requires Valid()
      modifies this
      ensures Valid()
      ensures rows.Keys == old(rows).Keys && forall id :: id in rows && (id != claim.id || !stored) ==> rows[id] == old(rows)[id]
      ensures stored && claim.id in rows ==>
                var was, row := old(rows)[claim.id], rows[claim.id];
                && row == Finished(was, claim, now, delivered)
                && row.attempts == was.attempts && row.lease.None?
                && (delivered <==> row.status == Delivered) && (row.status == Dead <==> !delivered && claim.attempts >= MAX_ATTEMPTS)
                && (if Terminal(row) then row.nextAt == was.nextAt else row.status == Retry && row.nextAt == Some(now + Delay(claim.attempts, 8)))
      ensures |DeadOnes(rows)| - |DeadOnes(old(rows))| <= deadLetters - old(deadLetters)
      ensures successes == old(successes) + (if delivered && stored then 1 else 0)
      ensures deadLetters == old(deadLetters) + (if !delivered && claim.attempts >= MAX_ATTEMPTS then 1 else 0)
      ensures retries == old(retries) + (if !delivered && claim.attempts < MAX_ATTEMPTS then 1 else 0)
    {
      ghost var was := rows;
      if delivered {
        if stored {
          if claim.id in rows {
            rows := rows[claim.id := rows[claim.id].(status := Delivered, lease := None)];
          }
          successes := successes + 1;
        }
        DeadOnesGrow(was, rows, {});
        return;
      }
      if claim.attempts >= MAX_ATTEMPTS {
        if stored && claim.id in rows {
          rows := rows[claim.id := rows[claim.id].(status := Dead, lease := None)];
        }
        deadLetters := deadLetters + 1;
        DeadOnesGrow(was, rows, {claim.id});
        return;
      }
      var delay := Delay(claim.attempts, 8);
      if stored && claim.id in rows {
        rows := rows[claim.id := rows[claim.id].(status := Retry, nextAt := Some(now + delay), lease := None)];
      }
      retries := retries + 1;
      DeadOnesGrow(was, rows, {});
    }
  }

  /** The sweep leaves the eligible events, and makes no other one eligible. */
  lemma EligibleStays(was: map<string, Row>, now: int)
    ensures Expire(was, now).Keys == was.Keys
    ensures forall id :: id in was && (Eligible(was[id], now) || Eligible(Expire(was, now)[id], now)) ==> Expire(was, now)[id] == was[id]
  {
  }

  lemma ClaimKeeps(was: map<string, Row>, rows: map<string, Row>, claim: Option<Claim>, id: string, now: int, optedOut: set<string>)
    requires Claimed(was, rows, claim, id, now, optedOut) && forall i :: i in was ==> Limited(was[i])
    ensures forall i :: i in rows ==> Limited(rows[i])
    ensures |DeadOnes(rows)| <= |DeadOnes(was)| + |Expiring(was, now)|
  {
    DeadOnesGrow(was, rows, Expiring(was, now));
  }

  lemma DeadOnesGrow(was: map<string, Row>, rows: map<string, Row>, more: set<string>)
    requires forall id :: id in rows && rows[id].status == Dead ==> id in more || (id in was && was[id].status == Dead)
    ensures |DeadOnes(rows)| <= |DeadOnes(was)| + |more|
  {
    SizeOfUnion(DeadOnes(rows), DeadOnes(was), more);
  }

  // ----- Runs -----

  /** One step of the system; each worker is a process of its own. An event may have an
      actor, who may prefer not to be analysed, and change that again. A poll finds no eligible
      event, a break is a claim whose transaction fails, and a crash loses the claim and
      the counters of the process, which starts again. */
  datatype Step =
    | Record(id: string, actor: string, at: int)
    | Prefer(actor: string, out: bool)
    | Poll(worker: nat, at: int)
    | Break(worker: nat, at: int)
    | Take(worker: nat, id: string, at: int)
    | OptOut(worker: nat, id: string, at: int)
    | Finish(worker: nat, at: int, delivered: bool, stored: bool)
    | Crash(worker: nat)

  /** `held` are the claims of the workers with the end of their leases, `sends` counts
      the hand-overs to PostHog, one per claim, `counters` are the dead letters that the
      workers report since their start, and `lost` those that crashed ones had reported. */
  datatype Held = Held(claim: Claim, until: int)
  datatype State = State(
    rows: map<string, Row>, actors: map<string, string>, optedOut: set<string>,
    held: map<nat, Held>, sends: map<string, nat>, counters: map<nat, nat>, lost: nat, clock: int)

  const EMPTY := State(map[], map[], {}, map[], map[], map[], 0, 0)

  /** The actor of the event prefers not to be analysed. */
  predicate OptedOut(st: State, id: string) {
    id in st.actors && st.actors[id] != "" && st.actors[id] in st.optedOut
  }

  predicate Enabled(st: State, step: Step) {
    match step
    case Record(id, _, at) => st.clock <= at && id !in st.rows
    case Prefer(_, _) => true
    case Poll(worker, at) => st.clock <= at && worker !in st.held && Idle(st.rows, at)
    case Break(worker, at) => st.clock <= at && worker !in st.held
    case Take(worker, id, at) => st.clock <= at && worker !in st.held && id in st.rows && Eligible(st.rows[id], at) && !OptedOut(st, id)
    case OptOut(worker, id, at) => st.clock <= at && worker !in st.held && id in st.rows && Eligible(st.rows[id], at) && OptedOut(st, id)
    case Finish(worker, at, _, _) => st.clock <= at && worker in st.held && st.held[worker].claim.id in st.rows
    case Crash(_) => true
  }

  function CounterOf(counters: map<nat, nat>, worker: nat): nat {
    if worker in counters then counters[worker] else 0
  }

  function Raised(counters: map<nat, nat>, worker: nat, more: nat): map<nat, nat> {
    counters[worker := CounterOf(counters, worker) + more]
  }

  function Apply(st: State, step: Step): State {
    if !Enabled(st, step) then st else
    match step
    case Record(id, actor, at) =>
      st.(rows := st.rows[id := Row(Pending, 0, Some(at), None)], actors := st.actors[id := actor], sends := st.sends[id := 0], clock := at)
    case Prefer(actor, out) => st.(optedOut := if out then st.optedOut + {actor} else st.optedOut - {actor})
    case Poll(worker, at) => st.(counters := Raised(st.counters, worker, |Expiring(st.rows, at)|), clock := at)
    case Break(worker, at) => st.(counters := Raised(st.counters, worker, |Expiring(st.rows, at)|), clock := at)
    case Take(worker, id, at) =>
      var row := Taken(st.rows[id], at);
      st.(rows := Expire(st.rows, at)[id := row], held := st.held[worker := Held(Claim(id, row.attempts), at + LEASE)],
          sends := st.sends[id := (if id in st.sends then st.sends[id] else 0) + 1],
          counters := Raised(st.counters, worker, |Expiring(st.rows, at)|), clock := at)
    case OptOut(worker, id, at) =>
      st.(rows := Expire(st.rows, at)[id := Dropped(st.rows[id])], counters := Raised(st.counters, worker, |Expiring(st.rows, at)|), clock := at)
    case Finish(worker, at, delivered, stored) =>
      var claim := st.held[worker].claim;
      st.(rows := if stored then st.rows[claim.id := Finished(st.rows[claim.id], claim, at, delivered)] else st.rows,
          held := st.held - {worker},
          counters := Raised(st.counters, worker, if !delivered && claim.attempts >= MAX_ATTEMPTS then 1 else 0), clock := at)
    case Crash(worker) =>
      st.(held := st.held - {worker}, counters := st.counters[worker := 0], lost := st.lost + CounterOf(st.counters, worker))
  }

  function Run(steps: seq<Step>): State {
    if steps == [] then EMPTY else Apply(Run(steps[..|steps| - 1]), steps[|steps| - 1])
  }

  // ----- Under every interleaving -----

  ghost predicate Counted(st: State) {
    && st.rows.Keys == st.sends.Keys
    && forall id :: id in st.rows ==> st.sends[id] == st.rows[id].attempts <= MAX_ATTEMPTS
  }

  lemma StepCounted(st: State, step: Step)
    requires Counted(st)
    ensures Counted(Apply(st, step))
  {
  }

  /** No event is ever sent more than ten times, whatever workers crash or stall. */
  lemma {:induction false} AtMostTenSends(steps: seq<Step>)
    ensures Counted(Run(steps))
  {
    if steps == [] {
    } else {
      AtMostTenSends(steps[..|steps| - 1]);
      StepCounted(Run(steps[..|steps| - 1]), steps[|steps| - 1]);
    }
  }

  // ----- Under an opt-out -----

  ghost predicate SentOf(st: State, id: string, actor: string, sends: nat) {
    id in st.rows && id in st.actors && st.actors[id] == actor && id in st.sends && st.sends[id] == sends
  }

  lemma StepUnsent(st: State, step: Step, id: string, actor: string, sends: nat)
    requires SentOf(st, id, actor, sends) && actor != "" && actor in st.optedOut
    ensures SentOf(Apply(st, step), id, actor, sends)
  {
  }

  /** As long as its actor prefers not to be analysed, no event is sent, whatever was
      pending, in flight or waiting for a retry. */
  lemma {:induction false} OptedOutUnsent(steps: seq<Step>, i: nat, k: nat, id: string, actor: string, sends: nat)
    requires i <= k <= |steps| && actor != "" && SentOf(Run(steps[..i]), id, actor, sends)
    requires forall j :: i <= j < k ==> actor in Run(steps[..j]).optedOut
    ensures SentOf(Run(steps[..k]), id, actor, sends)
  {
    hide Apply, SentOf;
    if i == k {
    } else {
      OptedOutUnsent(steps, i, k - 1, id, actor, sends);
      assert steps[..k][..k - 1] == steps[..k - 1];
      StepUnsent(Run(steps[..k - 1]), steps[k - 1], id, actor, sends);
    }
  }

  // ----- When every finish lands within its lease -----

  predicate Timely(st: State, step: Step) {
    step.Finish? && Enabled(st, step) ==> step.at <= st.held[step.worker].until
  }

  ghost predicate TimelyRun(steps: seq<Step>) {
    steps == [] || (TimelyRun(steps[..|steps| - 1]) && Timely(Run(steps[..|steps| - 1]), steps[|steps| - 1]))
  }

  /** A claim whose lease is not over is the one the table knows. */
  ghost predicate Known(st: State, h: Held) {
    && h.claim.id in st.rows
    && (st.clock <= h.until ==>
          st.rows[h.claim.id].status == Processing && st.rows[h.claim.id].attempts == h.claim.attempts && st.rows[h.claim.id].lease == Some(h.until))
  }

  predicate Rival(st: State, w: nat, v: nat) {
    w in st.held && v in st.held && w != v
    && st.clock <= st.held[w].until && st.clock <= st.held[v].until && st.held[w].claim.id == st.held[v].claim.id
  }

  predicate Sound(row: Row) {
    && row.attempts <= MAX_ATTEMPTS
    && (row.status == Pending || row.status == Retry ==> row.attempts < MAX_ATTEMPTS)
    && (row.status == Processing ==> row.lease.Some?)
  }

  ghost predicate Healthy(st: State) {
    && (forall w :: w in st.held ==> Known(st, st.held[w]))
    && (forall w, v :: !Rival(st, w, v))
    && (forall id :: id in st.rows ==> Sound(st.rows[id]))
  }

  /** While a lease is running no other worker can claim its event. */
  lemma LeaseProtects(st: State, w: nat, id: string, at: int)
    requires Healthy(st) && w in st.held && st.held[w].claim.id == id && st.clock <= at <= st.held[w].until
    ensures Expire(st.rows, at)[id] == st.rows[id] && !Eligible(st.rows[id], at)
  {
    assert Known(st, st.held[w]);
  }

  lemma StepKnown(st: State, step: Step, w: nat)
    requires Healthy(st) && Timely(st, step) && w in Apply(st, step).held
    ensures Known(Apply(st, step), Apply(st, step).held[w])
  {
    assert w in st.held ==> Known(st, st.held[w]);
    assert step.Finish? ==> !Rival(st, w, step.worker);
  }

  lemma StepRival(st: State, step: Step, w: nat, v: nat)
    requires Healthy(st) && Timely(st, step)
    ensures !Rival(Apply(st, step), w, v)
  {
    var next := Apply(st, step);
    if Rival(next, w, v) && Enabled(st, step) {
      assert !Rival(st, w, v);
      if step.Take? {
        LeaseProtects(st, if w == step.worker then v else w, step.id, step.at);
      }
    }
  }

  lemma StepSound(st: State, step: Step, id: string)
    requires Healthy(st) && Timely(st, step) && id in Apply(st, step).rows
    ensures Sound(Apply(st, step).rows[id])
  {
    if step.Finish? && Enabled(st, step) {
      assert Known(st, st.held[step.worker]);
    }
  }

  lemma StepHealthy(st: State, step: Step)
    requires Healthy(st) && Timely(st, step)
    ensures Healthy(Apply(st, step))
  {
    hide Apply, Known, Sound, Rival, Timely;
    forall w | w in Apply(st, step).held ensures Known(Apply(st, step), Apply(st, step).held[w]) { StepKnown(st, step, w); }
    forall w, v ensures !Rival(Apply(st, step), w, v) { StepRival(st, step, w, v); }
    forall id | id in Apply(st, step).rows ensures Sound(Apply(st, step).rows[id]) { StepSound(st, step, id); }
  }

  lemma {:induction false} TimelyHealthy(steps: seq<Step>)
    requires TimelyRun(steps)
    ensures Healthy(Run(steps))
  {
    if steps == [] {
    } else {
      TimelyHealthy(steps[..|steps| - 1]);
      StepHealthy(Run(steps[..|steps| - 1]), steps[|steps| - 1]);
    }
  }

  predicate Terminal(row: Row) { row.status == Delivered || row.status == Dead }

  /** How much an event can still do. */
  function Potential(row: Row): nat {
    if Terminal(row) || row.attempts > MAX_ATTEMPTS then 0
    else 2 * (MAX_ATTEMPTS - row.attempts) + if row.status == Processing then 3 else 2
  }

  predicate Moves(step: Step, st: State, id: string) {
    match step
    case Take(_, i, _) => i == id && Enabled(st, step)
    case OptOut(_, i, _) => i == id && Enabled(st, step)
    case Finish(w, _, _, stored) => stored && Enabled(st, step) && st.held[w].claim.id == id
    case _ => false
  }

  /** In a timely run: delivered and dead are final, every claim and every finish
      strictly lowers the potential of its event, and no step raises that of another. */
  lemma TimelyProgress(steps: seq<Step>, step: Step, id: string)
    requires TimelyRun(steps + [step]) && id in Run(steps).rows
    ensures var before, after := Run(steps).rows[id], Run(steps + [step]).rows;
      && id in after
      && (Terminal(before) ==> after[id] == before)
      && Potential(after[id]) <= Potential(before)
      && (Moves(step, Run(steps), id) ==> Potential(after[id]) < Potential(before))
  {
    hide Apply, Healthy, Timely, Terminal, Potential, Moves;
    assert (steps + [step])[..|steps|] == steps;
    TimelyHealthy(steps);
    StepProgress(Run(steps), step, id);
  }

  lemma StepProgress(st: State, step: Step, id: string)
    requires Healthy(st) && Timely(st, step) && id in st.rows
    ensures var before, after := st.rows[id], Apply(st, step).rows;
      && id in after
      && (Terminal(before) ==> after[id] == before)
      && Potential(after[id]) <= Potential(before)
      && (Moves(step, st, id) ==> Potential(after[id]) < Potential(before))
  {
    assert Sound(st.rows[id]);
    if step.Finish? && Enabled(st, step) {
      assert Known(st, st.held[step.worker]);
    }
  }

  ghost predicate MovesFrom(row: Row, from: int) {
    forall now :: from <= now ==> Eligible(row, now) || Exhausted(row, now)
  }

  /** In a timely run an event that is neither delivered nor dead has under ten attempts
      unless it is being processed, and from some time on it can be claimed or is out of
      attempts and due for the dead letters. */
  lemma NeverStuck(steps: seq<Step>, id: string)
    requires TimelyRun(steps) && id in Run(steps).rows && !Terminal(Run(steps).rows[id])
    ensures var row := Run(steps).rows[id];
      && (row.status != Processing ==> row.attempts < MAX_ATTEMPTS)
      && exists from :: MovesFrom(row, from)
  {
    TimelyHealthy(steps);
    var row := Run(steps).rows[id];
    assert Sound(row);
    var from := if row.status == Processing then row.lease.value + 1 else if row.nextAt.Some? then row.nextAt.value else 0;
    assert MovesFrom(row, from);
  }

  /** Whether the step claims or drops some event. */
  predicate Claims(st: State, step: Step) {
    (step.Take? || step.OptOut?) && Enabled(st, step)
  }

  /** An event due for the dead letters gets there only along with the claim of another
      event, or by the late report of the worker that lost it; polls leave it alone. */
  lemma BuriedIff(st: State, step: Step, id: string, now: int)
    requires id in st.rows && Exhausted(st.rows[id], now) && now <= st.clock
    ensures id in Apply(st, step).rows
    ensures Claims(st, step) ==> Apply(st, step).rows[id].status == Dead
    ensures Apply(st, step).rows[id] != st.rows[id] <==>
              Claims(st, step) || (step.Finish? && step.stored && Enabled(st, step) && st.held[step.worker].claim.id == id)
  {
  }

  // ----- The dead-letter counter -----

  /** What the first `n` workers report together. */
  function Total(counters: map<nat, nat>, n: nat): nat {
    if n == 0 then 0 else Total(counters, n - 1) + CounterOf(counters, n - 1)
  }

  lemma {:induction false} TotalChanges(counters: map<nat, nat>, n: nat, worker: nat, count: nat)
    ensures Total(counters[worker := count], n) == Total(counters, n) + (if worker < n then count - CounterOf(counters, worker) else 0)
  {
    if n == 0 {
    } else {
      TotalChanges(counters, n - 1, worker, count);
    }
  }

  predicate Among(step: Step, n: nat) {
    step.Record? || step.Prefer? || step.worker < n
  }

  lemma StepTotal(st: State, step: Step, n: nat)
    requires Among(step, n)
    ensures var next := Apply(st, step);
      |DeadOnes(next.rows)| - |DeadOnes(st.rows)| <= Total(next.counters, n) + next.lost - Total(st.counters, n) - st.lost
  {
    hide Total;
    StepDead(st, step);
    if Enabled(st, step) && !step.Record? && !step.Prefer? {
      hide DeadOnes, Expiring, Expire, Idle, Eligible;
      TotalChanges(st.counters, n, step.worker, CounterOf(Apply(st, step).counters, step.worker));
    }
  }

  /** A step makes at most as many events dead as it counts. */
  lemma StepDead(st: State, step: Step)
    ensures var next := Apply(st, step);
      |DeadOnes(next.rows)| - |DeadOnes(st.rows)| <=
      if !Enabled(st, step) || step.Record? || step.Prefer? || step.Crash? then 0
      else CounterOf(next.counters, step.worker) - CounterOf(st.counters, step.worker)
  {
    var next, dead := Apply(st, step), DeadOnes(st.rows);
    if step.Finish? && Enabled(st, step) {
      var claim := st.held[step.worker].claim;
      SizeOfSubset(DeadOnes(next.rows), if step.delivered || claim.attempts < MAX_ATTEMPTS then dead else dead + {claim.id});
    } else if Claims(st, step) {
      SizeOfSubset(DeadOnes(next.rows), dead + Expiring(st.rows, step.at));
    } else {
      SizeOfSubset(DeadOnes(next.rows), dead);
    }
  }

  /** Every dead event has been counted, but not the other way round: the counters of all
      the workers bound the dead events, together with what crashed ones had counted. */
  lemma {:induction false} CounterBound(steps: seq<Step>, n: nat)
    requires forall i :: 0 <= i < |steps| ==> Among(steps[i], n)
    ensures var st := Run(steps); |DeadOnes(st.rows)| <= Total(st.counters, n) + st.lost
    ensures (forall i :: 0 <= i < |steps| ==> !steps[i].Crash?) ==> Run(steps).lost == 0
  {
    hide Apply, Among;
    if steps == [] {
      NoneDead();
    } else {
      var k := |steps| - 1;
      CounterBound(steps[..k], n);
      StepTotal(Run(steps[..k]), steps[k], n);
      OnlyCrashesLose(Run(steps[..k]), steps[k]);
    }
  }

  lemma NoneDead()
    ensures DeadOnes(EMPTY.rows) == {}
  {
  }

  lemma OnlyCrashesLose(st: State, step: Step)
    ensures !step.Crash? ==> Apply(st, step).lost == st.lost
  {
  }

  /** The counter is exact for a poll only when there is nothing to bury: an idle poll
      counts every exhausted event again and buries none. */
  lemma IdlePollsInflate(st: State, worker: nat, at: int)
    requires Enabled(st, Poll(worker, at))
    ensures var next := Apply(st, Poll(worker, at));
      && next.rows == st.rows
      && (CounterOf(next.counters, worker) == CounterOf(st.counters, worker) <==> forall id :: id in st.rows ==> !Exhausted(st.rows[id], at))
  {
    var expiring := Expiring(st.rows, at);
    assert forall id :: id in expiring <==> id in st.rows && Exhausted(st.rows[id], at);
    assert |expiring| == 0 <==> expiring == {};
  }

  /** A failed event waits for at least two and at most 256 seconds. */
  lemma RetryWaits(row: Row, claim: Claim, now: int)
    requires 1 <= claim.attempts < MAX_ATTEMPTS
    ensures var after := Finished(row, claim, now, false);
      after.status == Retry && after.nextAt.Some? && now + 2 <= after.nextAt.value <= now + 256
  {
    DelayGrows(1, claim.attempts, 8);
    assert Power(8) == 2 * Power(7) == 4 * Power(6) == 8 * Power(5) == 16 * Power(4) == 32 * Power(3) == 64 * Power(2) == 128 * Power(1);
    assert Power(1) == 2 * Power(0);
  }

  // ----- When a finish comes late -----

  /** An event that waits for a retry it will never get. */
  predicate Stuck(row: Row) {
    (row.status == Pending || row.status == Retry) && row.attempts >= MAX_ATTEMPTS
  }

  /** A step strands an event exactly when it reports the failure of an early claim for
      an event that has since used up its attempts. */
  lemma StrandedIff(steps: seq<Step>, step: Step, id: string)
    requires id in Run(steps).rows && !Stuck(Run(steps).rows[id])
    ensures Stuck(Apply(Run(steps), step).rows[id]) <==>
              && step.Finish? && Enabled(Run(steps), step) && step.stored && !step.delivered
              && Run(steps).held[step.worker].claim.id == id
              && Run(steps).held[step.worker].claim.attempts < MAX_ATTEMPTS <= Run(steps).rows[id].attempts
  {
    AtMostTenSends(steps);
    assert Counted(Run(steps));
  }

  /** A stranded event that no worker holds any more. */
  ghost predicate Lost(st: State, id: string, row: Row) {
    id in st.rows && st.rows[id] == row && Stuck(row) && forall w :: w in st.held ==> st.held[w].claim.id != id
  }

  lemma StepLost(st: State, step: Step, id: string, row: Row)
    requires Lost(st, id, row)
    ensures Lost(Apply(st, step), id, row)
  {
  }

  /** It stays as it is for good: it is never claimed, sent or buried again. */
  lemma {:induction false} LostForGood(steps: seq<Step>, i: nat, k: nat, id: string, row: Row)
    requires i <= k <= |steps| && Lost(Run(steps[..i]), id, row)
    ensures Lost(Run(steps[..k]), id, row)
  {
    hide Apply, Lost;
    if i == k {
    } else {
      LostForGood(steps, i, k - 1, id, row);
      assert steps[..k][..k - 1] == steps[..k - 1];
      StepLost(Run(steps[..k - 1]), steps[k - 1], id, row);
    }
  }

  /** Ten workers claim one event, each after the lease of the one before. */
  function TenClaims(k: nat): seq<Step> {
    if k == 0 then [Record("e", "", 0)] else TenClaims(k - 1) + [Take(k - 1, "e", 61 * (k - 1))]
  }

  ghost predicate AfterClaims(st: State, k: nat) {
    && st.rows.Keys == {"e"} && !OptedOut(st, "e") && st.rows["e"].attempts == k && st.clock <= 61 * k && st.lost == 0
    && (forall w :: CounterOf(st.counters, w) == 0)
    && (forall w :: w in st.held ==> w < k)
    && (k == 0 ==> st.rows["e"] == Row(Pending, 0, Some(0), None))
    && (k > 0 ==> st.rows["e"].status == Processing && st.rows["e"].lease == Some(61 * k - 1))
    && (k > 0 ==> 0 in st.held && st.held[0].claim == Claim("e", 1))
    && (k > 0 ==> k - 1 in st.held && st.held[k - 1].claim == Claim("e", k))
  }

  lemma OneMoreClaim(st: State, k: nat)
    requires AfterClaims(st, k) && k < MAX_ATTEMPTS
    ensures AfterClaims(Apply(st, Take(k, "e", 61 * k)), k + 1)
  {
    assert k !in st.held;
    assert Eligible(st.rows["e"], 61 * k);
    assert Expiring(st.rows, 61 * k) == {};
    assert Enabled(st, Take(k, "e", 61 * k));
    var next := Apply(st, Take(k, "e", 61 * k));
    assert forall w :: CounterOf(next.counters, w) == CounterOf(st.counters, w);
  }

  lemma NextClaim(k: nat)
    requires k > 0
    ensures Run(TenClaims(k)) == Apply(Run(TenClaims(k - 1)), Take(k - 1, "e", 61 * (k - 1)))
  {
    hide Apply;
    assert TenClaims(k)[..|TenClaims(k - 1)|] == TenClaims(k - 1);
  }

  lemma NoClaimYet()
    ensures AfterClaims(Run(TenClaims(0)), 0)
  {
    assert TenClaims(0)[..0] == [];
  }

  lemma {:induction false} ClaimsRun(k: nat)
    requires k <= MAX_ATTEMPTS
    ensures AfterClaims(Run(TenClaims(k)), k)
  {
    hide *;
    if k == 0 {
      NoClaimYet();
    } else {
      ClaimsRun(k - 1);
      NextClaim(k);
      OneMoreClaim(Run(TenClaims(k - 1)), k - 1);
    }
  }

  /** So without the timeliness the claim "no event is stuck" is false: the first of the
      ten workers reports its failure last. */
  lemma LateFinishStrands()
    ensures var rows := Run(TenClaims(10) + [Finish(0, 610, false, true)]).rows; "e" in rows && Stuck(rows["e"])
  {
    LossesRun(0);
  }

  /** The late report, and then the loss of the other workers. */
  function Losses(k: nat): seq<Step> {
    if k == 0 then TenClaims(10) + [Finish(0, 610, false, true)] else Losses(k - 1) + [Crash(k)]
  }

  ghost predicate AfterLosses(st: State, k: nat) {
    && "e" in st.rows && Stuck(st.rows["e"])
    && forall w :: w in st.held ==> k < w < 10
  }

  lemma LateReport(st: State)
    requires AfterClaims(st, 10)
    ensures AfterLosses(Apply(st, Finish(0, 610, false, true)), 0)
  {
  }

  lemma {:induction false} LossesRun(k: nat)
    requires k <= 9
    ensures AfterLosses(Run(Losses(k)), k)
  {
    hide TenClaims, AfterClaims;
    if k == 0 {
      ClaimsRun(10);
      assert Losses(0)[..|TenClaims(10)|] == TenClaims(10);
      LateReport(Run(TenClaims(10)));
    } else {
      LossesRun(k - 1);
      assert Losses(k)[..|Losses(k - 1)|] == Losses(k - 1);
    }
  }

  /** So an event can be stranded for good, whatever happens afterwards. */
  lemma StrandedForGood() returns (row: Row)
    ensures Stuck(row) && forall more :: Lost(Run(Losses(9) + more), "e", row)
  {
    hide Apply, Losses;
    LossesRun(9);
    row := Run(Losses(9)).rows["e"];
    var n := |Losses(9)|;
    forall more
      ensures Lost(Run(Losses(9) + more), "e", row)
    {
      var all := Losses(9) + more;
      assert all[..n] == Losses(9) && all[..|all|] == all;
      LostForGood(all, n, |all|, "e", row);
    }
  }

  /** Ten claims, and from then on nothing but the polls of an eleventh worker. */
  function ManyPolls(n: nat): seq<Step> {
    if n == 0 then TenClaims(10) else ManyPolls(n - 1) + [Poll(10, 610)]
  }

  ghost predicate AfterPolls(st: State, n: nat) {
    && st.rows.Keys == {"e"} && st.clock <= 610 && CounterOf(st.counters, 10) == n && 10 !in st.held
    && st.rows["e"].status == Processing && Exhausted(st.rows["e"], 610)
  }

  lemma OneMorePoll(st: State, n: nat)
    requires AfterPolls(st, n)
    ensures AfterPolls(Apply(st, Poll(10, 610)), n + 1)
  {
    assert Expiring(st.rows, 610) == {"e"};
    assert Enabled(st, Poll(10, 610));
  }

  lemma NoPollYet(st: State)
    requires AfterClaims(st, 10)
    ensures AfterPolls(st, 0)
  {
  }

  lemma NextPoll(n: nat)
    ensures ManyPolls(0) == TenClaims(10)
    ensures n > 0 ==> Run(ManyPolls(n)) == Apply(Run(ManyPolls(n - 1)), Poll(10, 610))
  {
    hide Apply, TenClaims;
    assert n > 0 ==> ManyPolls(n)[..|ManyPolls(n - 1)|] == ManyPolls(n - 1);
  }

  /** So the counter has no bound while no event is dead: the one that has used up its
      attempts is counted by every poll and never buried. */
  lemma {:induction false} PollsCountForGood(n: nat)
    ensures var st := Run(ManyPolls(n)); AfterPolls(st, n) && DeadOnes(st.rows) == {}
  {
    hide Run, Apply, ManyPolls, TenClaims, AfterClaims, AfterPolls, DeadOnes;
    NextPoll(n);
    if n == 0 {
      ClaimsRun(10);
      NoPollYet(Run(TenClaims(10)));
    } else {
      PollsCountForGood(n - 1);
      OneMorePoll(Run(ManyPolls(n - 1)), n - 1);
    }
    NoneDeadYet(Run(ManyPolls(n)), n);
  }

  lemma NoneDeadYet(st: State, n: nat)
    requires AfterPolls(st, n)
    ensures DeadOnes(st.rows) == {}
  {
  }

  lemma CrashAfterBurial(st: State)
    requires AfterClaims(st, 10)
    ensures var next := Apply(Apply(st, Finish(9, 610, false, true)), Crash(9));
      DeadOnes(next.rows) == {"e"} && (forall n :: Total(next.counters, n) == 0) && next.lost == 1
  {
    var mid := Apply(st, Finish(9, 610, false, true));
    var next := Apply(mid, Crash(9));
    assert mid.rows["e"].status == Dead && CounterOf(mid.counters, 9) == 1;
    assert forall w :: CounterOf(next.counters, w) == CounterOf(st.counters, w);
    forall n
      ensures Total(next.counters, n) == 0
    {
      NothingReported(next.counters, n);
    }
  }

  lemma {:induction false} NothingReported(counters: map<nat, nat>, n: nat)
    requires forall w :: CounterOf(counters, w) == 0
    ensures Total(counters, n) == 0
  {
    if n == 0 {
    } else {
      NothingReported(counters, n - 1);
    }
  }

  /** And without what the crashes have lost the counters are no bound: the worker that
      buried the event starts again. */
  lemma CrashForgets()
    ensures var st := Run(TenClaims(10) + [Finish(9, 610, false, true), Crash(9)]);
      DeadOnes(st.rows) == {"e"} && forall n :: Total(st.counters, n) == 0
  {
    hide Apply, TenClaims, AfterClaims, Total;
    ClaimsRun(10);
    CrashAfterBurial(Run(TenClaims(10)));
    var all := TenClaims(10) + [Finish(9, 610, false, true), Crash(9)];
    assert all[..|all| - 1] == TenClaims(10) + [Finish(9, 610, false, true)];
    assert (TenClaims(10) + [Finish(9, 610, false, true)])[..|TenClaims(10)|] == TenClaims(10);
  }
}
