/** What every sequence of requests keeps of the enrollment tables. */
module EnrollmentRuns {
  import opened Options
  import opened Enrollment

  datatype Step =
    | Invite(code: string, expires: int, uses: nat, sourceType: SourceType)
    | Draft(policy: string, sourceType: SourceType)
    | Rotate(policy: string, code: string, now: int, lifetime: int, uses: nat)
    | WithdrawCredential(policy: string, code: string)
    | WithdrawPolicy(policy: string)
    | Start(environment: string, kind: SourceType, mode: Mode, code: string, expires: int)
    | Issue(environment: string, code: string, expires: int)
    | Upgrade(environment: string, code: string, expires: int)
    | HandOff(environment: string, handoff: string, expires: int)
    | WithdrawHandoff(environment: string, handoff: string)
    | Resolve(handoff: string, code: string, now: int, expires: int)
    | Report(environment: string, result: ScanResult)
    | Submit(source: string, sequence: nat)
    | Exchange(request: Request)
    | WithdrawSource(source: string)
    | WithdrawDevice(fingerprint: string)
    | Disconnect(environment: string)

  predicate NamesCode(step: Step) {
    step.Invite? || step.Rotate? || step.Start? || step.Issue? || step.Upgrade? || step.Resolve?
  }

  /** Random names are new. */
  predicate Fresh(t: Tables, step: Step) {
    && (NamesCode(step) ==> step.code !in t.codes && step.code !in t.sessions)
    && (step.Draft? ==> step.policy !in t.policies)
    && (step.Start? ==> step.environment !in t.environments)
    && (step.HandOff? ==> step.handoff !in t.handoffs)
    && (step.Exchange? ==> step.request.source !in t.sources && step.request.enrollment !in t.enrollments && step.request.refresh !in t.tokens)
  }

  ghost function Exchanged(t: Tables, r: Request): Tables {
    if Verdict(t, r).None? then Accepted(t, r) else Denied(t, r, Verdict(t, r).value)
  }

  /** Every request but an exchange. */
  function Plain(t: Tables, step: Step): Tables {
    match step
    case Invite(code, expires, uses, sourceType) => Invited(t, code, expires, uses, sourceType)
    case Draft(policy, sourceType) => Drafted(t, policy, sourceType)
    case Rotate(policy, code, now, lifetime, uses) => Rotated(t, policy, code, now, lifetime, uses)
    case WithdrawCredential(policy, code) => CredentialWithdrawn(t, policy, code)
    case WithdrawPolicy(policy) => PolicyWithdrawn(t, policy)
    case Start(e, kind, mode, code, expires) => SetUp(t, e, kind, mode, code, expires)
    case Issue(e, code, expires) => Issued(t, e, code, expires)
    case Upgrade(e, code, expires) => Upgraded(t, e, code, expires)
    case HandOff(e, handoff, expires) => HandedOff(t, e, handoff, expires)
    case WithdrawHandoff(e, handoff) => HandoffWithdrawn(t, e, handoff)
    case Resolve(handoff, code, now, expires) => Resolved(t, handoff, code, now, expires)
    case Report(e, result) => Reported(t, e, result)
    case Submit(source, sequence) => Sequenced(t, source, sequence)
    case Exchange(_) => t
    case WithdrawSource(source) => SourceWithdrawn(t, source)
    case WithdrawDevice(fingerprint) => DeviceWithdrawn(t, fingerprint)
    case Disconnect(e) => Parted(t, e)
  }

  ghost function Apply(t: Tables, step: Step): Tables {
    if !Fresh(t, step) then t
    else if step.Exchange? then Exchanged(t, step.request)
    else Plain(t, step)
  }

  ghost function Run(steps: seq<Step>): Tables {
    if steps == [] then EMPTY else Apply(Run(steps[..|steps| - 1]), steps[|steps| - 1])
  }

  lemma RunStep(steps: seq<Step>, k: nat)
    requires 0 < k <= |steps|
    ensures Run(steps[..k]) == Apply(Run(steps[..k - 1]), steps[k - 1])
  {
    hide Apply;
    assert steps[..k][..k - 1] == steps[..k - 1];
  }

  // ----- Credentials -----

  function RowsOf(rows: map<string, Row>, credential: string): set<string> {
    set k | k in rows && rows[k].credential == credential
  }

  ghost predicate Balanced(t: Tables, c: string) {
    c in t.codes && t.codes[c].policy.Some? ==> t.codes[c].uses + |RowsOf(t.enrollments, c)| == t.codes[c].maxUses
  }

  ghost predicate RowKnown(t: Tables, k: string) {
    k in t.enrollments ==>
      t.enrollments[k].credential in t.codes && t.codes[t.enrollments[k].credential].policy == Some(t.enrollments[k].policy)
  }

  predicate PolicyCodeSound(t: Tables, c: string) {
    c in t.codes && t.codes[c].policy.Some? ==>
      && t.codes[c].policy.value in t.policies && t.codes[c].mode == Continuous && t.codes[c].environment.None?
      && (t.policies[t.codes[c].policy.value].revoked ==> t.codes[c].revoked)
  }

  /** Two unrevoked credentials of one policy. */
  predicate Twins(t: Tables, c: string, d: string) {
    && c in t.codes && d in t.codes && c != d && !t.codes[c].revoked && !t.codes[d].revoked
    && t.codes[c].policy.Some? && t.codes[c].policy == t.codes[d].policy
  }

  ghost predicate Credentials(t: Tables) {
    && (forall c :: Balanced(t, c))
    && (forall k :: RowKnown(t, k))
    && (forall c :: PolicyCodeSound(t, c))
    && (forall c, d :: !Twins(t, c, d))
  }

  /** A policy's credential stays; only an accepted exchange of it uses it. */
  predicate CodeKept(t: Tables, next: Tables, c: string, spent: bool) {
    c in t.codes ==>
      && (t.codes[c].policy.Some? ==> c in next.codes)
      && (c in next.codes ==>
            && next.codes[c].policy == t.codes[c].policy && next.codes[c].maxUses == t.codes[c].maxUses
            && next.codes[c].mode == t.codes[c].mode && next.codes[c].environment == t.codes[c].environment
            && (t.codes[c].revoked ==> next.codes[c].revoked)
            && next.codes[c].uses + (if spent then 1 else 0) == t.codes[c].uses)
  }

  ghost predicate Accepts(t: Tables, step: Step)
    ensures Accepts(t, step) ==> step.Exchange? && step.request.code in t.codes && Verdict(t, step.request).None? && Apply(t, step) == Accepted(t, step.request)
  {
    step.Exchange? && Fresh(t, step) && Verdict(t, step.request).None?
  }

  /** A request that only leaves an audit event. */
  predicate Idle(t: Tables, next: Tables) {
    next == t.(audit := next.audit)
  }

  /** A step is an accepted exchange, one of the other requests, or changes nothing but
      the audit log: a refused exchange consumes nothing. */
  lemma StepCases(t: Tables, step: Step)
    ensures Accepts(t, step) || (Fresh(t, step) && Apply(t, step) == Plain(t, step)) || Idle(t, Apply(t, step))
    ensures Accepts(t, step) ==> step.Exchange? && Verdict(t, step.request).None? && Apply(t, step) == Accepted(t, step.request)
    ensures Idle(t, Apply(t, step)) ==> Apply(t, step).codes == t.codes && Apply(t, step).policies == t.policies
  {
    hide Plain, Accepted, Verdict;
  }

  /** What an accepted exchange has checked. */
  lemma Admitted(t: Tables, r: Request)
    requires Verdict(t, r).None?
    ensures r.code in t.codes
    ensures var code := t.codes[r.code];
      && !code.revoked && code.expires > r.now && code.uses > 0
      && (code.policy.Some? && code.policy.value in t.policies ==> !t.policies[code.policy.value].revoked)
      && (r.fingerprint in t.targets ==> !t.targets[r.fingerprint].revoked)
      && !Clashes(t.targets, code, r)
  {
  }

  /** Other requests change no more of a code than its revocation. */
  lemma PlainCode(t: Tables, step: Step, c: string)
    requires Fresh(t, step) && c in t.codes
    ensures c in Plain(t, step).codes
    ensures Plain(t, step).codes[c] == t.codes[c] || Plain(t, step).codes[c] == t.codes[c].(revoked := true)
  {
    hide Settled, Withdrawn, Silenced, Without;
  }

  lemma ExchangeKeepsCode(t: Tables, r: Request, c: string)
    requires Verdict(t, r).None?
    ensures CodeKept(t, Accepted(t, r), c, r.code == c)
  {
    hide Bound, Settled, Withdrawn, SourcesAfter, TargetAfter, Completes, Without;
  }

  lemma SameCodes(t: Tables, next: Tables, c: string)
    requires next.codes == t.codes
    ensures CodeKept(t, next, c, false)
  {
  }

  lemma PlainKeepsCode(t: Tables, step: Step, c: string)
    requires Fresh(t, step)
    ensures CodeKept(t, Plain(t, step), c, false)
  {
    hide Plain;
    if c in t.codes {
      PlainCode(t, step, c);
    }
  }

  lemma StepCodeKept(t: Tables, step: Step, c: string)
    ensures CodeKept(t, Apply(t, step), c, Accepts(t, step) && step.request.code == c)
  {
    hide *;
    StepCases(t, step);
    if Accepts(t, step) {
      ExchangeKeepsCode(t, step.request, c);
    } else if Fresh(t, step) && Apply(t, step) == Plain(t, step) {
      PlainKeepsCode(t, step, c);
    } else {
      SameCodes(t, Apply(t, step), c);
    }
  }

  lemma PlainNewCode(t: Tables, step: Step, c: string)
    requires Fresh(t, step) && c !in t.codes && c in Plain(t, step).codes
    ensures IssuedFor(t, step, Plain(t, step).codes[c])
  {
  }

  /** A new code has all its uses; a policy's credential is issued for a live policy. */
  predicate IssuedFor(t: Tables, step: Step, code: Code) {
    && code.uses == code.maxUses && !code.revoked
    && (code.policy.Some? ==>
          && step.Rotate? && step.policy == code.policy.value && step.policy in t.policies && !t.policies[step.policy].revoked
          && code.mode == Continuous && code.environment.None?)
  }

  lemma ExchangeAddsNoCode(t: Tables, r: Request)
    requires Verdict(t, r).None?
    ensures Accepted(t, r).codes.Keys <= t.codes.Keys
  {
    hide Bound, Settled, Withdrawn, SourcesAfter, TargetAfter, Completes, Without;
  }

  lemma StepCodeNew(t: Tables, step: Step, c: string)
    requires c !in t.codes && c in Apply(t, step).codes
    ensures Fresh(t, step) && IssuedFor(t, step, Apply(t, step).codes[c])
  {
    hide Plain, Apply, Accepted, Verdict, IssuedFor;
    StepCases(t, step);
    if Accepts(t, step) {
      ExchangeAddsNoCode(t, step.request);
    } else if Fresh(t, step) && Apply(t, step) == Plain(t, step) {
      PlainNewCode(t, step, c);
    }
  }

  lemma StepRows(t: Tables, step: Step)
    ensures if !Accepts(t, step) || t.codes[step.request.code].policy.None? then Apply(t, step).enrollments == t.enrollments
            else
              var k := step.request.enrollment;
              && k !in t.enrollments && k in Apply(t, step).enrollments
              && Apply(t, step).enrollments == t.enrollments[k := Apply(t, step).enrollments[k]]
              && Apply(t, step).enrollments[k].credential == step.request.code
              && Apply(t, step).enrollments[k].policy == t.codes[step.request.code].policy.value
  {
    hide Bound, Settled, Withdrawn, SourcesAfter, TargetAfter, Completes, Without, Used, Unused, Closed, Silenced;
  }

  lemma RowsGrow(rows: map<string, Row>, k: string, row: Row, c: string)
    requires k !in rows
    ensures |RowsOf(rows[k := row], c)| == |RowsOf(rows, c)| + (if row.credential == c then 1 else 0)
  {
    assert RowsOf(rows[k := row], c) == if row.credential == c then RowsOf(rows, c) + {k} else RowsOf(rows, c);
  }

  lemma StepBalanced(t: Tables, step: Step, c: string)
    requires Credentials(t)
    ensures Balanced(Apply(t, step), c)
  {
    hide Apply, PolicyCodeSound, Twins, Verdict;
    var next := Apply(t, step);
    assert Balanced(t, c);
    StepRows(t, step);
    if Accepts(t, step) && t.codes[step.request.code].policy.Some? {
      RowsGrow(t.enrollments, step.request.enrollment, next.enrollments[step.request.enrollment], c);
    }
    if c in t.codes {
      StepCodeKept(t, step, c);
    } else if c in next.codes {
      StepCodeNew(t, step, c);
      assert forall k :: k in t.enrollments ==> RowKnown(t, k);
      assert RowsOf(t.enrollments, c) == {};
    }
  }

  lemma StepRowKnown(t: Tables, step: Step, k: string)
    requires Credentials(t)
    ensures RowKnown(Apply(t, step), k)
  {
    hide Apply, Balanced, PolicyCodeSound, Twins, Verdict;
    assert RowKnown(t, k);
    StepRows(t, step);
    if k in Apply(t, step).enrollments {
      StepCodeKept(t, step, Apply(t, step).enrollments[k].credential);
    }
  }

  /** A policy stays, and one that is or becomes revoked has no live credential left. */
  predicate PolicyKept(t: Tables, next: Tables, p: string) {
    p in t.policies ==>
      && p in next.policies && (t.policies[p].revoked ==> next.policies[p].revoked)
      && (next.policies[p].revoked && !t.policies[p].revoked ==> next.codes == Unused(t.codes, p))
  }

  lemma PlainKeepsPolicies(t: Tables, step: Step)
    ensures !step.Draft? && !step.WithdrawPolicy? ==> Plain(t, step).policies == t.policies
  {
    hide Settled, Withdrawn, Silenced, Without, Unused, Closed;
  }

  lemma PolicyDrafted(t: Tables, policy: string, sourceType: SourceType, p: string)
    requires policy !in t.policies
    ensures PolicyKept(t, Drafted(t, policy, sourceType), p)
  {
  }

  lemma PolicyEnded(t: Tables, policy: string, p: string)
    ensures PolicyKept(t, PolicyWithdrawn(t, policy), p)
  {
    hide Unused;
  }

  lemma PlainPolicy(t: Tables, step: Step, p: string)
    requires Fresh(t, step)
    ensures PolicyKept(t, Plain(t, step), p)
  {
    hide PolicyKept, Drafted, PolicyWithdrawn, Invited, Rotated, CredentialWithdrawn, SetUp, Issued, Upgraded, HandedOff, HandoffWithdrawn;
    hide Resolved, Reported, Sequenced, SourceWithdrawn, DeviceWithdrawn, Parted;
    if step.Draft? {
      PolicyDrafted(t, step.policy, step.sourceType, p);
    } else if step.WithdrawPolicy? {
      PolicyEnded(t, step.policy, p);
    } else {
      PlainKeepsPolicies(t, step);
      SamePolicies(t, Plain(t, step), p);
    }
  }

  lemma ExchangeKeepsPolicies(t: Tables, r: Request)
    requires Verdict(t, r).None?
    ensures Accepted(t, r).policies == t.policies
  {
    hide Verdict, Used, Bound, Settled, Withdrawn, SourcesAfter, TargetAfter, Completes, Without;
  }

  lemma StepPolicy(t: Tables, step: Step, p: string)
    ensures PolicyKept(t, Apply(t, step), p)
  {
    hide *;
    StepCases(t, step);
    if Accepts(t, step) {
      ExchangeKeepsPolicies(t, step.request);
      SamePolicies(t, Apply(t, step), p);
    } else if Fresh(t, step) && Apply(t, step) == Plain(t, step) {
      PlainPolicy(t, step, p);
    } else {
      SamePolicies(t, Apply(t, step), p);
    }
  }

  lemma SamePolicies(t: Tables, next: Tables, p: string)
    requires next.policies == t.policies
    ensures PolicyKept(t, next, p)
  {
  }

  lemma StepPolicyCodeSound(t: Tables, step: Step, c: string)
    requires Credentials(t)
    ensures PolicyCodeSound(Apply(t, step), c)
  {
    hide Plain, Apply, Accepted, Verdict, Balanced, RowKnown, Twins, Fresh;
    assert PolicyCodeSound(t, c);
    if c in t.codes {
      StepCodeKept(t, step, c);
      if t.codes[c].policy.Some? {
        StepPolicy(t, step, t.codes[c].policy.value);
      }
    } else if c in Apply(t, step).codes {
      StepCodeNew(t, step, c);
      if Apply(t, step).codes[c].policy.Some? {
        StepPolicy(t, step, step.policy);
      }
    }
  }

  lemma StepTwins(t: Tables, step: Step, c: string, d: string)
    requires Credentials(t)
    ensures !Twins(Apply(t, step), c, d)
  {
    hide Apply, Accepted, Verdict, Balanced, RowKnown, PolicyCodeSound;
    assert !Twins(t, c, d);
    var next := Apply(t, step);
    if c in next.codes && d in next.codes && c != d {
      StepCodeKept(t, step, c);
      StepCodeKept(t, step, d);
      if c !in t.codes || d !in t.codes {
        var issued := if c !in t.codes then c else d;
        StepCodeNew(t, step, issued);
        if next.codes[issued].policy.Some? {
          RotationRevokes(t, step);
        }
      }
    }
  }

  lemma RotationRevokes(t: Tables, step: Step)
    requires step.Rotate? && Fresh(t, step)
    ensures forall c :: c in Apply(t, step).codes && c != step.code && Apply(t, step).codes[c].policy == Some(step.policy) ==>
                          c in t.codes && (step.code in Apply(t, step).codes ==> Apply(t, step).codes[c].revoked)
  {
  }

  lemma StepCredentials(t: Tables, step: Step)
    requires Credentials(t)
    ensures Credentials(Apply(t, step))
  {
    hide Apply, Balanced, RowKnown, PolicyCodeSound, Twins;
    forall c ensures Balanced(Apply(t, step), c) { StepBalanced(t, step, c); }
    forall k ensures RowKnown(Apply(t, step), k) { StepRowKnown(t, step, k); }
    forall c ensures PolicyCodeSound(Apply(t, step), c) { StepPolicyCodeSound(t, step, c); }
    forall c, d ensures !Twins(Apply(t, step), c, d) { StepTwins(t, step, c, d); }
  }

  lemma {:induction false} CredentialsAlways(steps: seq<Step>)
    ensures Credentials(Run(steps))
  {
    if steps == [] {
    } else {
      CredentialsAlways(steps[..|steps| - 1]);
      StepCredentials(Run(steps[..|steps| - 1]), steps[|steps| - 1]);
    }
  }

  // ----- The promises about credentials -----

  /** In every run a policy's credential has as many uses left as its limit less its
      enrollment rows; so the counts on the policy page are the rows. */
  lemma UsesAreConserved(steps: seq<Step>, c: string)
    requires c in Run(steps).codes && Run(steps).codes[c].policy.Some?
    ensures var code := Run(steps).codes[c];
      && code.maxUses == code.uses + |RowsOf(Run(steps).enrollments, c)|
      && code.maxUses - code.uses == |RowsOf(Run(steps).enrollments, c)|
  {
    hide *;
    CredentialsAlways(steps);
    CredentialsUnfold(Run(steps), c, c);
  }

  lemma CredentialsUnfold(t: Tables, c: string, d: string)
    requires Credentials(t)
    ensures c in t.codes && t.codes[c].policy.Some? ==> t.codes[c].uses + |RowsOf(t.enrollments, c)| == t.codes[c].maxUses
    ensures PolicyCodeSound(t, c) && PolicyCodeSound(t, d) && !Twins(t, c, d)
  {
    assert Balanced(t, c);
  }

  /** A policy has at most one unrevoked credential, and a revoked policy has none. */
  lemma OneCredential(steps: seq<Step>, c: string, d: string)
    requires var t := Run(steps); c in t.codes && d in t.codes && t.codes[c].policy.Some? && t.codes[c].policy == t.codes[d].policy
    ensures var t := Run(steps); !t.codes[c].revoked && !t.codes[d].revoked ==> c == d && t.codes[c].policy.value in t.policies && !t.policies[t.codes[c].policy.value].revoked
  {
    hide Run, Credentials;
    CredentialsAlways(steps);
    CredentialsUnfold(Run(steps), c, d);
  }

  /** The policy page calls a credential active exactly when an exchange would not refuse
      it for its own state. */
  lemma ActiveIffAccepted(steps: seq<Step>, c: string, now: int)
    requires c in Run(steps).codes
    ensures StatusOf(Run(steps).codes[c], now) == Active <==> CredentialFault(Run(steps).policies, Run(steps).codes[c], now).None?
    ensures var code := Run(steps).codes[c];
      && (StatusOf(code, now) == Revoked <==> code.revoked)
      && (StatusOf(code, now) == Expired <==> !code.revoked && code.expires <= now)
      && (StatusOf(code, now) == Exhausted <==> !code.revoked && now < code.expires && code.uses == 0)
  {
    hide Run, Credentials;
    CredentialsAlways(steps);
    CredentialsUnfold(Run(steps), c, c);
  }

  // ----- Refusals -----

  /** The run without its refused attempts. */
  ghost function Admissions(steps: seq<Step>): seq<Step> {
    if steps == [] then []
    else
      var before, step := steps[..|steps| - 1], steps[|steps| - 1];
      if step.Exchange? && !Accepts(Run(before), step) then Admissions(before) else Admissions(before) + [step]
  }

  lemma VerdictBlind(t: Tables, audit: seq<Event>, r: Request)
    ensures Verdict(t.(audit := audit), r) == Verdict(t, r)
  {
    hide CredentialFault, RequestFault, TargetAfter, ActiveSource, Clashes;
  }

  lemma AcceptedBlind(t: Tables, audit: seq<Event>, r: Request)
    requires Verdict(t, r).None? && Verdict(t.(audit := audit), r).None?
    ensures Idle(Accepted(t, r), Accepted(t.(audit := audit), r))
  {
    hide Verdict, Used, Bound, Settled, Withdrawn, SourcesAfter, TargetAfter, Completes, Without;
    Admitted(t, r);
  }

  lemma CodesBlind(t: Tables, other: Tables, step: Step)
    requires Idle(t, other) && (step.Invite? || step.Draft? || step.Rotate? || step.WithdrawCredential? || step.WithdrawPolicy?)
    ensures Idle(Plain(t, step), Plain(other, step))
  {
    hide Unused, Closed, SetUp, Issued, Upgraded, HandedOff, HandoffWithdrawn, Resolved, Reported, Sequenced, SourceWithdrawn, DeviceWithdrawn, Parted;
  }

  lemma SetupBlind(t: Tables, other: Tables, step: Step)
    requires Idle(t, other) && (step.Start? || step.HandOff? || step.WithdrawHandoff? || step.Report? || step.Submit?)
    ensures Idle(Plain(t, step), Plain(other, step))
  {
    hide Withdrawn, Invited, Drafted, Rotated, CredentialWithdrawn, PolicyWithdrawn, Issued, Upgraded, Resolved, SourceWithdrawn, DeviceWithdrawn, Parted;
  }

  lemma IssueBlind(t: Tables, other: Tables, step: Step)
    requires Idle(t, other) && (step.Issue? || step.Upgrade? || step.Resolve?)
    ensures Idle(Plain(t, step), Plain(other, step))
  {
    hide Settled, Closed, Invited, Drafted, Rotated, CredentialWithdrawn, PolicyWithdrawn, SetUp, HandedOff, HandoffWithdrawn, Reported, Sequenced;
    hide SourceWithdrawn, DeviceWithdrawn, Parted;
  }

  lemma EndBlind(t: Tables, other: Tables, step: Step)
    requires Idle(t, other) && (step.WithdrawSource? || step.WithdrawDevice? || step.Disconnect? || step.Exchange?)
    ensures Idle(Plain(t, step), Plain(other, step))
  {
    hide Settled, Withdrawn, Silenced, Without, Closed, Invited, Drafted, Rotated, CredentialWithdrawn, PolicyWithdrawn, SetUp, Issued, Upgraded;
    hide HandedOff, HandoffWithdrawn, Resolved, Reported, Sequenced, DeviceWithdrawn;
    if step.WithdrawDevice? {
      DeviceBlind(t, other, step.fingerprint);
    }
  }

  lemma DeviceBlind(t: Tables, other: Tables, f: string)
    requires Idle(t, other)
    ensures Idle(DeviceWithdrawn(t, f), DeviceWithdrawn(other, f))
  {
    hide Silenced;
    assert DeviceWithdrawn(t, f).tokens == DeviceWithdrawn(other, f).tokens;
  }

  lemma PlainBlind(t: Tables, other: Tables, step: Step)
    requires Idle(t, other)
    ensures Idle(Plain(t, step), Plain(other, step))
  {
    hide *;
    match step
    case Invite(_, _, _, _) | Draft(_, _) | Rotate(_, _, _, _, _) | WithdrawCredential(_, _) | WithdrawPolicy(_) => CodesBlind(t, other, step);
    case Start(_, _, _, _, _) | HandOff(_, _, _) | WithdrawHandoff(_, _) | Report(_, _) | Submit(_, _) => SetupBlind(t, other, step);
    case Issue(_, _, _) | Upgrade(_, _, _) | Resolve(_, _, _, _) => IssueBlind(t, other, step);
    case _ => EndBlind(t, other, step);
  }

  /** No request reads the audit log. */
  lemma StepBlind(t: Tables, other: Tables, step: Step)
    requires Idle(t, other)
    ensures Idle(Apply(t, step), Apply(other, step))
  {
    hide Plain, Accepted, Verdict;
    if Fresh(t, step) && step.Exchange? {
      VerdictBlind(t, other.audit, step.request);
      if Verdict(t, step.request).None? {
        AcceptedBlind(t, other.audit, step.request);
      }
    } else if Fresh(t, step) {
      PlainBlind(t, other, step);
    }
  }

  /** A refused attempt consumes nothing: without all of them a run ends in the same
      tables, but for the audit log. */
  lemma {:induction false} RefusalsAreInvisible(steps: seq<Step>)
    ensures Idle(Run(steps), Run(Admissions(steps)))
  {
    hide Apply, Accepts;
    if steps == [] {
    } else {
      var before, step := steps[..|steps| - 1], steps[|steps| - 1];
      RefusalsAreInvisible(before);
      if step.Exchange? && !Accepts(Run(before), step) {
        RefusalIdle(Run(before), step);
      } else {
        StepBlind(Run(before), Run(Admissions(before)), step);
        assert (Admissions(before) + [step])[..|Admissions(before)|] == Admissions(before);
      }
    }
  }

  lemma RefusalIdle(t: Tables, step: Step)
    requires step.Exchange? && !Accepts(t, step)
    ensures Idle(t, Apply(t, step))
  {
    hide Verdict;
  }

  /** How often the log tells that the credential was used. */
  function Successes(audit: seq<Event>, c: string): nat {
    if audit == [] then 0
    else
      var event := audit[|audit| - 1];
      Successes(audit[..|audit| - 1], c) + (if event.Succeeded? && event.credential == c then 1 else 0)
  }

  lemma OneMoreEvent(audit: seq<Event>, event: Event, c: string)
    ensures Successes(audit + [event], c) == Successes(audit, c) + (if event.Succeeded? && event.credential == c then 1 else 0)
  {
    assert (audit + [event])[..|audit|] == audit;
  }

  lemma PlainSilent(t: Tables, step: Step)
    ensures Plain(t, step).audit == t.audit
  {
    hide Settled, Withdrawn, Silenced, Without, Unused, Closed;
  }

  predicate Tells(t: Tables, next: Tables, c: string, event: Event) {
    event.Succeeded? && event.credential == c && next.audit == t.audit + [event]
  }

  lemma AcceptedTold(t: Tables, r: Request)
    requires Verdict(t, r).None?
    ensures r.code in t.codes
    ensures t.codes[r.code].policy.None? ==> Accepted(t, r).audit == t.audit
    ensures t.codes[r.code].policy.Some? ==>
              exists event :: Tells(t, Accepted(t, r), r.code, event)
  {
    hide Used, Bound, Settled, Withdrawn, SourcesAfter, TargetAfter, Completes, Without, Verdict;
    Admitted(t, r);
    var code := t.codes[r.code];
    if code.policy.Some? {
      var active := ActiveSource(t.sources, TargetAfter(t.targets, code, r).id, code.sourceType);
      assert Tells(t, Accepted(t, r), r.code, Succeeded(code.policy.value, r.code, if active.Some? then active.value else r.source, active.Some?));
    }
  }

  lemma StepTold(t: Tables, step: Step, c: string)
    requires Successes(t.audit, c) == |RowsOf(t.enrollments, c)|
    ensures Successes(Apply(t, step).audit, c) == |RowsOf(Apply(t, step).enrollments, c)|
  {
    hide Plain, Accepted, Verdict, Fresh, Successes, RowsOf;
    StepRows(t, step);
    if Accepts(t, step) {
      var r := step.request;
      AcceptedTold(t, r);
      if t.codes[r.code].policy.Some? {
        var event :| Tells(t, Apply(t, step), r.code, event);
        OneMoreEvent(t.audit, event, c);
        RowsGrow(t.enrollments, r.enrollment, Apply(t, step).enrollments[r.enrollment], c);
      }
    } else if step.Exchange? {
      RefusalTold(t, step, c);
    } else {
      PlainSilent(t, step);
    }
  }

  lemma RefusalTold(t: Tables, step: Step, c: string)
    requires step.Exchange? && !Accepts(t, step)
    ensures Successes(Apply(t, step).audit, c) == Successes(t.audit, c)
  {
    hide Verdict;
    if Fresh(t, step) && Audited(t, step.request, Verdict(t, step.request).value) {
      OneMoreEvent(t.audit, Refused(t.codes[step.request.code].policy.value, step.request.code, Verdict(t, step.request).value), c);
    }
  }

  /** In every run the audit log tells a success for every enrollment row of a credential,
      and no other: so the log accounts for the uses that are gone. */
  lemma {:induction false} SuccessesAreRows(steps: seq<Step>, c: string)
    ensures var t := Run(steps);
      && Successes(t.audit, c) == |RowsOf(t.enrollments, c)|
      && (c in t.codes && t.codes[c].policy.Some? ==> Successes(t.audit, c) == t.codes[c].maxUses - t.codes[c].uses)
  {
    hide Apply, Successes, RowsOf, Balanced, RowKnown, PolicyCodeSound, Twins;
    if steps == [] {
      NothingTold(c);
    } else {
      SuccessesAreRows(steps[..|steps| - 1], c);
      StepTold(Run(steps[..|steps| - 1]), steps[|steps| - 1], c);
    }
    CredentialsAlways(steps);
    CredentialsUnfold(Run(steps), c, c);
  }

  lemma NothingTold(c: string)
    ensures Successes(EMPTY.audit, c) == |RowsOf(EMPTY.enrollments, c)|
  {
    assert RowsOf(EMPTY.enrollments, c) == {};
  }

  ghost predicate Spent(t: Tables, c: string) {
    c in t.codes && t.codes[c].policy.Some? && t.codes[c].revoked
  }

  lemma StepSpent(t: Tables, step: Step, c: string)
    requires Spent(t, c)
    ensures Spent(Apply(t, step), c)
    ensures RowsOf(Apply(t, step).enrollments, c) == RowsOf(t.enrollments, c)
  {
    hide Apply, Verdict;
    StepCodeKept(t, step, c);
    StepRows(t, step);
    if Accepts(t, step) {
      Admitted(t, step.request);
    }
  }

  /** A revoked credential never gains another enrollment. */
  lemma {:induction false} RevokedGainsNothing(steps: seq<Step>, i: nat, k: nat, c: string)
    requires i <= k <= |steps| && Spent(Run(steps[..i]), c)
    ensures Spent(Run(steps[..k]), c)
    ensures RowsOf(Run(steps[..k]).enrollments, c) == RowsOf(Run(steps[..i]).enrollments, c)
  {
    hide Apply, Spent, RowsOf;
    if i == k {
    } else {
      RevokedGainsNothing(steps, i, k - 1, c);
      assert steps[..k][..k - 1] == steps[..k - 1];
      StepSpent(Run(steps[..k - 1]), steps[k - 1], c);
    }
  }
}
