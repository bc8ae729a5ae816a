/** What every sequence of requests keeps of the setup of an environment: its sessions,
    its codes, its handoffs and its connection. */
module Setups {
  import opened Options
  import opened Enrollment
  import opened EnrollmentRuns

  // ----- One active credential, session and handoff -----

  predicate TwoCodes(t: Tables, c: string, d: string) {
    && c in t.codes && d in t.codes && c != d && !t.codes[c].revoked && !t.codes[d].revoked
    && t.codes[c].environment.Some? && t.codes[c].environment == t.codes[d].environment
  }

  predicate TwoSessions(t: Tables, k: string, l: string) {
    && k in t.sessions && l in t.sessions && k != l
    && t.sessions[k].state == Pending && t.sessions[l].state == Pending && t.sessions[k].environment == t.sessions[l].environment
  }

  predicate TwoHandoffs(t: Tables, h: string, j: string) {
    && h in t.handoffs && j in t.handoffs && h != j
    && !t.handoffs[h].revoked && !t.handoffs[j].revoked && t.handoffs[h].environment == t.handoffs[j].environment
  }

  /** Codes, sessions and handoffs belong to known environments; a session shares its
      token with the single-use code of its environment while that exists. */
  predicate CodeSound(t: Tables, c: string) {
    c in t.codes && t.codes[c].environment.Some? ==>
      t.codes[c].environment.value in t.environments && t.codes[c].uses <= 1 && t.codes[c].policy.None?
  }

  predicate SessionSound(t: Tables, k: string) {
    k in t.sessions ==>
      && t.sessions[k].environment in t.environments
      && (k in t.codes ==> t.codes[k].environment == Some(t.sessions[k].environment))
  }

  predicate HandoffSound(t: Tables, h: string) {
    h in t.handoffs ==> t.handoffs[h].environment in t.environments
  }

  ghost predicate Prepared(t: Tables) {
    && (forall c, d :: !TwoCodes(t, c, d))
    && (forall k, l :: !TwoSessions(t, k, l))
    && (forall h, j :: !TwoHandoffs(t, h, j))
    && (forall c :: CodeSound(t, c))
    && (forall k :: SessionSound(t, k))
    && (forall h :: HandoffSound(t, h))
  }

  lemma PlainEnvironments(t: Tables, step: Step, e: string)
    requires e in t.environments
    ensures e in Plain(t, step).environments
  {
    hide Settled, Withdrawn, Unused, Closed, Without, Silenced;
  }

  lemma PlainTwoCodes(t: Tables, step: Step, c: string, d: string)
    requires Prepared(t) && Fresh(t, step)
    ensures !TwoCodes(Plain(t, step), c, d)
  {
    hide Settled, Withdrawn, Without, Silenced, TwoSessions, TwoHandoffs, SessionSound, HandoffSound;
    assert !TwoCodes(t, c, d);
    assert CodeSound(t, c) && CodeSound(t, d);
  }

  lemma PlainTwoSessions(t: Tables, step: Step, k: string, l: string)
    requires Prepared(t) && Fresh(t, step)
    ensures !TwoSessions(Plain(t, step), k, l)
  {
    hide Unused, Closed, Withdrawn, Without, Silenced, TwoCodes, TwoHandoffs, CodeSound, HandoffSound;
    assert !TwoSessions(t, k, l);
    assert SessionSound(t, k) && SessionSound(t, l);
  }

  lemma PlainTwoHandoffs(t: Tables, step: Step, h: string, j: string)
    requires Prepared(t) && Fresh(t, step)
    ensures !TwoHandoffs(Plain(t, step), h, j)
  {
    hide Unused, Closed, Settled, Without, Silenced, TwoCodes, TwoSessions, CodeSound, SessionSound;
    assert !TwoHandoffs(t, h, j);
    assert HandoffSound(t, h) && HandoffSound(t, j);
  }

  lemma PlainCodeSound(t: Tables, step: Step, c: string)
    requires Prepared(t) && Fresh(t, step)
    ensures CodeSound(Plain(t, step), c)
  {
    hide Plain, TwoCodes, TwoSessions, TwoHandoffs, SessionSound, HandoffSound;
    assert CodeSound(t, c);
    if c in t.codes {
      PlainCode(t, step, c);
      if t.codes[c].environment.Some? {
        PlainEnvironments(t, step, t.codes[c].environment.value);
      }
    } else if c in Plain(t, step).codes && Plain(t, step).codes[c].environment.Some? {
      PlainCodePlace(t, step, c);
    }
  }

  lemma PlainCodePlace(t: Tables, step: Step, c: string)
    requires c !in t.codes && c in Plain(t, step).codes && Plain(t, step).codes[c].environment.Some?
    ensures CodeSound(Plain(t, step), c)
  {
    hide Settled, Withdrawn, Without, Silenced;
  }

  lemma PlainSessionSound(t: Tables, step: Step, k: string)
    requires Prepared(t) && Fresh(t, step)
    ensures SessionSound(Plain(t, step), k)
  {
    hide Withdrawn, Without, Silenced, TwoCodes, TwoSessions, TwoHandoffs, CodeSound, HandoffSound;
    assert SessionSound(t, k);
  }

  lemma PlainHandoffSound(t: Tables, step: Step, h: string)
    requires Prepared(t) && Fresh(t, step)
    ensures HandoffSound(Plain(t, step), h)
  {
    hide Settled, Unused, Closed, Without, Silenced, TwoCodes, TwoSessions, TwoHandoffs, CodeSound, SessionSound;
    assert HandoffSound(t, h);
  }

  // ----- An accepted exchange -----

  predicate Setup(t: Tables, r: Request) {
    r.code in t.codes && Completes(t.sessions, t.codes[r.code], r)
  }

  lemma ExchangeSetup(t: Tables, r: Request)
    requires Verdict(t, r).None?
    ensures r.code in t.codes && t.codes[r.code].uses > 0 && SetupActive(t.environments, t.codes[r.code])
    ensures Accepted(t, r).codes == Used(t.codes, r.code)
    ensures Accepted(t, r).environments.Keys == t.environments.Keys
    ensures Accepted(t, r).sessions == if Setup(t, r) then Settled(t.sessions, t.sessions[r.code].environment, Consumed) else t.sessions
    ensures Accepted(t, r).handoffs == if Setup(t, r) then Withdrawn(t.handoffs, t.sessions[r.code].environment) else t.handoffs
  {
    hide Used, Settled, Withdrawn, SourcesAfter, TargetAfter, Completes, Without;
  }

  lemma ExchangePrepared(t: Tables, r: Request)
    requires Prepared(t) && Verdict(t, r).None?
    ensures Prepared(Accepted(t, r))
  {
    hide Verdict, Accepted, Setup, SetupActive;
    ExchangeSetup(t, r);
    var next := Accepted(t, r);
    forall c, d ensures !TwoCodes(next, c, d) { assert !TwoCodes(t, c, d); }
    forall k, l ensures !TwoSessions(next, k, l) { assert !TwoSessions(t, k, l); }
    forall h, j ensures !TwoHandoffs(next, h, j) { assert !TwoHandoffs(t, h, j); }
    forall c ensures CodeSound(next, c) { assert CodeSound(t, c); }
    forall k ensures SessionSound(next, k) { assert SessionSound(t, k); }
    forall h ensures HandoffSound(next, h) { assert HandoffSound(t, h); }
  }

  lemma PlainPrepared(t: Tables, step: Step)
    requires Prepared(t) && Fresh(t, step)
    ensures Prepared(Plain(t, step))
  {
    hide Plain, Fresh, TwoCodes, TwoSessions, TwoHandoffs, CodeSound, SessionSound, HandoffSound;
    var next := Plain(t, step);
    forall c, d ensures !TwoCodes(next, c, d) { PlainTwoCodes(t, step, c, d); }
    forall k, l ensures !TwoSessions(next, k, l) { PlainTwoSessions(t, step, k, l); }
    forall h, j ensures !TwoHandoffs(next, h, j) { PlainTwoHandoffs(t, step, h, j); }
    forall c ensures CodeSound(next, c) { PlainCodeSound(t, step, c); }
    forall k ensures SessionSound(next, k) { PlainSessionSound(t, step, k); }
    forall h ensures HandoffSound(next, h) { PlainHandoffSound(t, step, h); }
  }

  lemma IdlePrepared(t: Tables, next: Tables)
    requires Prepared(t) && Idle(t, next)
    ensures Prepared(next)
  {
    assert forall c, d :: TwoCodes(next, c, d) ==> TwoCodes(t, c, d);
    assert forall k, l :: TwoSessions(next, k, l) ==> TwoSessions(t, k, l);
    assert forall h, j :: TwoHandoffs(next, h, j) ==> TwoHandoffs(t, h, j);
    assert forall c :: CodeSound(t, c) ==> CodeSound(next, c);
    assert forall k :: SessionSound(t, k) ==> SessionSound(next, k);
    assert forall h :: HandoffSound(t, h) ==> HandoffSound(next, h);
  }

  lemma StepPrepared(t: Tables, step: Step)
    requires Prepared(t)
    ensures Prepared(Apply(t, step))
  {
    hide *;
    StepCases(t, step);
    if Accepts(t, step) {
      ExchangePrepared(t, step.request);
    } else if Fresh(t, step) && Apply(t, step) == Plain(t, step) {
      PlainPrepared(t, step);
    } else {
      IdlePrepared(t, Apply(t, step));
    }
  }

  lemma EmptyPrepared()
    ensures Prepared(EMPTY)
  {
  }

  /** In every run an environment has at most one unrevoked code, one pending session and
      one unrevoked handoff; so the unique indexes on them never refuse a write. */
  lemma {:induction false} PreparedAlways(steps: seq<Step>)
    ensures Prepared(Run(steps))
  {
    hide Apply, Prepared;
    if steps == [] {
      EmptyPrepared();
    } else {
      PreparedAlways(steps[..|steps| - 1]);
      StepPrepared(Run(steps[..|steps| - 1]), steps[|steps| - 1]);
    }
  }

  /** A completed setup leaves nothing to use: no unrevoked code, no pending session and
      no unrevoked handoff of its environment. */
  lemma SetupIsConsumed(t: Tables, r: Request)
    requires Prepared(t) && Verdict(t, r).None? && Setup(t, r)
    ensures var next, e := Accepted(t, r), t.sessions[r.code].environment;
      && (forall c :: c in next.codes && next.codes[c].environment == Some(e) ==> next.codes[c].revoked)
      && (forall k :: k in next.sessions && next.sessions[k].environment == e ==> next.sessions[k].state != Pending)
      && (forall h :: h in next.handoffs && next.handoffs[h].environment == e ==> next.handoffs[h].revoked)
  {
    hide Verdict, Accepted, SetupActive;
    ExchangeSetup(t, r);
    Admitted(t, r);
    assert SessionSound(t, r.code) && CodeSound(t, r.code);
    forall c | c in t.codes && c != r.code && t.codes[c].environment == t.codes[r.code].environment
      ensures t.codes[c].revoked
    {
      assert !TwoCodes(t, c, r.code);
    }
  }

  // ----- Disconnection -----

  /** Disconnected, with no session left that could complete. */
  ghost predicate ShutDown(t: Tables, e: string) {
    && e in t.environments && t.environments[e].connection == Enrollment.Disconnected
    && forall k :: k in t.sessions && t.sessions[k].environment == e ==> t.sessions[k].state != Pending
  }

  lemma DisconnectShuts(t: Tables, e: string)
    requires e in t.environments && t.environments[e].connection != Enrollment.Disconnected
    ensures ShutDown(Parted(t, e), e)
  {
  }

  lemma PlainConnection(t: Tables, step: Step, e: string)
    requires Fresh(t, step) && e in t.environments && t.environments[e].connection == Enrollment.Disconnected
    ensures e in Plain(t, step).environments && Plain(t, step).environments[e].connection == Enrollment.Disconnected
  {
    hide Settled, Withdrawn, Unused, Closed, Without, Silenced;
  }

  lemma PlainSessions(t: Tables, step: Step, e: string, k: string)
    requires Fresh(t, step) && e in t.environments && t.environments[e].connection == Enrollment.Disconnected
    requires k in Plain(t, step).sessions && Plain(t, step).sessions[k].environment == e && Plain(t, step).sessions[k].state == Pending
    ensures k in t.sessions && t.sessions[k] == Plain(t, step).sessions[k]
  {
    hide Withdrawn, Unused, Closed, Without, Silenced;
  }

  lemma ExchangeConnection(t: Tables, r: Request, e: string)
    requires Verdict(t, r).None? && e in t.environments && t.environments[e].connection == Enrollment.Disconnected
    ensures e in Accepted(t, r).environments
    ensures Accepted(t, r).environments[e].connection != Enrollment.Disconnected <==> Setup(t, r) && t.sessions[r.code].environment == e
  {
    hide Verdict, Used, Settled, Withdrawn, SourcesAfter, TargetAfter, Completes, Without;
    Admitted(t, r);
  }

  lemma StepShutDown(t: Tables, step: Step, e: string)
    requires ShutDown(t, e)
    ensures ShutDown(Apply(t, step), e)
  {
    hide Plain, Apply, Accepted, Verdict, Fresh, SetupActive;
    StepCases(t, step);
    if Accepts(t, step) {
      ExchangeSetup(t, step.request);
      ExchangeConnection(t, step.request, e);
    } else if Fresh(t, step) && Apply(t, step) == Plain(t, step) {
      PlainConnection(t, step, e);
      forall k | k in Apply(t, step).sessions && Apply(t, step).sessions[k].environment == e
        ensures Apply(t, step).sessions[k].state != Pending
      {
        if Apply(t, step).sessions[k].state == Pending {
          PlainSessions(t, step, e, k);
        }
      }
    }
  }

  /** What disconnectEnvironment has disconnected stays disconnected. */
  lemma {:induction false} DisconnectIsFinal(steps: seq<Step>, i: nat, k: nat, e: string)
    requires i < k <= |steps| && steps[i] == Disconnect(e)
    requires e in Run(steps[..i]).environments && Run(steps[..i]).environments[e].connection != Enrollment.Disconnected
    ensures ShutDown(Run(steps[..k]), e)
  {
    hide Apply, ShutDown;
    assert steps[..k][..k - 1] == steps[..k - 1];
    if i == k - 1 {
      DisconnectShuts(Run(steps[..i]), e);
      DisconnectApplies(Run(steps[..i]), e);
    } else {
      DisconnectIsFinal(steps, i, k - 1, e);
      StepShutDown(Run(steps[..k - 1]), steps[k - 1], e);
    }
  }

  lemma DisconnectApplies(t: Tables, e: string)
    ensures Apply(t, Disconnect(e)) == Parted(t, e)
  {
  }

  /** But an environment that lost its source to another one comes back exactly when an
      exchange completes a session that it still had open. */
  lemma ReconnectIff(t: Tables, step: Step, e: string)
    requires e in t.environments && t.environments[e].connection == Enrollment.Disconnected
    ensures e in Apply(t, step).environments
    ensures Apply(t, step).environments[e].connection != Enrollment.Disconnected <==>
              Accepts(t, step) && Setup(t, step.request) && t.sessions[step.request.code].environment == e
  {
    hide Plain, Apply, Accepted, Verdict, Fresh, SetupActive, Setup;
    StepCases(t, step);
    if Accepts(t, step) {
      ExchangeConnection(t, step.request, e);
    } else if Fresh(t, step) && Apply(t, step) == Plain(t, step) {
      PlainConnection(t, step, e);
    }
  }
}
