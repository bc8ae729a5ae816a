/** The enrollment requests as the Hub runs them, statement by statement; one method is
    one transaction (internal/hub/server.go, deployment_policies.go, endpoint_setup.go,
    environments.go, device_fleet.go). */
module Registry {
  import opened Options
  import opened Enrollment
  import opened EnrollmentRuns
  import opened Devices
  import opened Requests

  datatype Outcome =
    | Granted(source: string, target: TargetId, sequence: nat, refresh: Option<string>)
    | Rejected(reason: Reason)

  const CODE_LIFETIME := 900

  class Organization {
    var policies: Policies
    var codes: Codes
    var targets: map<string, Target>
    var sources: Sources
    var environments: Environments
    var sessions: Sessions
    var tokens: map<string, string>
    var enrollments: map<string, Row>
    var handoffs: Handoffs
    var audit: seq<Event>

    function Contents(): Tables
      reads this
    {
      Tables(policies, codes, targets, sources, environments, sessions, tokens, enrollments, handoffs, audit)
    }

    /** The facts that every request keeps. */
    ghost predicate Valid()
      reads this
    {
      Credentials(Contents()) && Registered(Contents())
    }

    constructor ()
      ensures Contents() == EMPTY && Valid()
    {
      policies, codes, targets, sources, environments := map[], map[], map[], map[], map[];
      sessions, tokens, enrollments, handoffs, audit := map[], map[], map[], map[], [];
      new;
      assert Contents() == EMPTY;
    }

    /** Any step of a run keeps the facts. */
    lemma Keep(before: Tables, step: Step)
      requires Credentials(before) && Registered(before) && Fresh(before, step) && !step.Exchange? && Contents() == Plain(before, step)
      ensures Valid()
    {
      hide Plain, Fresh, Credentials, Registered;
      StepCredentials(before, step);
      StepRegistered(before, step);
    }

    lemma KeepRevoked(before: Tables, e: string, f: string)
      requires Credentials(before) && Registered(before) && (Contents() == Parted(before, e) || Contents() == DeviceWithdrawn(before, f))
      ensures Valid()
    {
      hide Credentials, Registered, Invited, Drafted, Rotated, CredentialWithdrawn, PolicyWithdrawn, SetUp, Issued, Upgraded, HandedOff, HandoffWithdrawn, Resolved, Reported, Sequenced, SourceWithdrawn, DeviceWithdrawn, Parted;
      if Contents() == Parted(before, e) {
        Keep(before, EnrollmentRuns.Disconnect(e));
      } else {
        Keep(before, WithdrawDevice(f));
      }
    }

    lemma KeepExchange(before: Tables, r: Request, outcome: Outcome)
      requires Credentials(before) && Registered(before) && Fresh(before, EnrollmentRuns.Exchange(r)) && Contents() == Exchanged(before, r)
      requires if Verdict(before, r).Some? then outcome == Rejected(Verdict(before, r).value)
               else && outcome.Granted? && outcome.source == BoundSource(before, r)
                    && outcome.target == TargetAfter(before.targets, before.codes[r.code], r).id
      ensures Valid() && Decides(before, r, outcome)
      ensures outcome.Granted? ==> r.code in before.codes && Leaves(before, r, outcome.source, outcome.target, Contents())
    {
      hide Plain, Fresh, Exchanged, Credentials, Registered, Decides, Leaves, Accepted, Verdict, ActiveSource, TargetAfter;
      StepCredentials(before, EnrollmentRuns.Exchange(r));
      StepRegistered(before, EnrollmentRuns.Exchange(r));
      ExchangeStated(before, r, outcome);
    }

    /** A refusal, with its audit event unless it has none. */
    lemma KeepRefused(before: Tables, r: Request, reason: Reason)
      requires Credentials(before) && Registered(before) && Fresh(before, EnrollmentRuns.Exchange(r)) && Verdict(before, r) == Some(reason)
      requires Contents() == Denied(before, r, reason) || (!Audited(before, r, reason) && Contents() == before)
      ensures Valid() && Decides(before, r, Rejected(reason)) && Contents() == Denied(before, r, reason)
      ensures && Contents() == before.(audit := audit)
              && audit == before.audit + (if reason != DatabaseError && r.code != "" && r.code in before.codes && before.codes[r.code].policy.Some?
                                          then [Refused(before.codes[r.code].policy.value, r.code, reason)] else [])
    {
      hide Credentials, Registered, Verdict, Decides;
      KeepExchange(before, r, Rejected(reason));
    }

    // ----- Deployment policies -----

    method RotateCredential(policy: string, code: string, now: int, lifetime: int, uses: nat) returns (issued: bool)
      requires code !in codes
      requires Valid() && code !in sessions
      modifies `codes
      ensures Contents() == Rotated(old(Contents()), policy, code, now, lifetime, uses)
      ensures issued <==> code in codes
      ensures RotationLeft(old(Contents()), policy, code, now, lifetime, uses, issued, Contents())
      ensures Valid()
    {
      hide Credentials, Registered, RotationLeft;
      if policy !in policies || policies[policy].revoked {
        RotationIs(Contents(), policy, code, now, lifetime, uses);
        return false;
      }
      if lifetime < 60 || lifetime > 2592000 || uses < 1 || uses > 100000 {
        RotationIs(Contents(), policy, code, now, lifetime, uses);
        return false;
      }
      codes := map c | c in codes :: if codes[c].policy == Some(policy) then codes[c].(revoked := true) else codes[c];
      codes := codes[code := Code(Some(policy), None, now + lifetime, uses, uses, policies[policy].sourceType, Continuous, false)];
      Keep(old(Contents()), Rotate(policy, code, now, lifetime, uses));
      RotationIs(old(Contents()), policy, code, now, lifetime, uses);
      return true;
    }

    method RevokeCredential(policy: string, code: string) returns (found: bool)
      requires Valid()
      modifies `codes
      ensures Contents() == CredentialWithdrawn(old(Contents()), policy, code)
      ensures WithdrawalLeft(old(Contents()), policy, code, found, Contents())
      ensures Valid()
    {
      hide Credentials, Registered, WithdrawalLeft;
      if code !in codes || codes[code].policy != Some(policy) || codes[code].revoked {
        WithdrawalIs(Contents(), policy, code);
        return false;
      }
      codes := codes[code := codes[code].(revoked := true)];
      Keep(old(Contents()), WithdrawCredential(policy, code));
      WithdrawalIs(old(Contents()), policy, code);
      return true;
    }

    method RevokePolicy(policy: string) returns (found: bool)
      requires Valid()
      modifies `policies, `codes
      ensures Contents() == PolicyWithdrawn(old(Contents()), policy)
      ensures PolicyLeft(old(Contents()), policy, found, Contents())
      ensures Valid()
    {
      hide Credentials, Registered, PolicyLeft;
      if policy !in policies || policies[policy].revoked {
        PolicyWithdrawalIs(Contents(), policy);
        return false;
      }
      policies := policies[policy := policies[policy].(revoked := true)];
      codes := map c | c in codes :: if codes[c].policy == Some(policy) then codes[c].(revoked := true) else codes[c];
      Keep(old(Contents()), WithdrawPolicy(policy));
      PolicyWithdrawalIs(old(Contents()), policy);
      return true;
    }

    // ----- Endpoint setup -----

    method Reissue(e: string, token: string, mode: Mode, expires: int)
      modifies `sessions, `codes
      ensures Contents() == Reissued(old(Contents()), e, token, mode, expires)
    {
      sessions := map k | k in sessions ::
        if sessions[k].environment == e && sessions[k].state == Pending then sessions[k].(state := Cancelled) else sessions[k];
      codes := map c | c in codes :: if codes[c].environment == Some(e) then codes[c].(revoked := true) else codes[c];
      sessions := sessions[token := Session(e, Endpoint, Pending, expires)];
      codes := codes[token := Code(None, Some(e), expires, 1, 1, Endpoint, mode, false)];
    }

    method IssueEndpointCredential(e: string, token: string, now: int) returns (issued: bool)
      requires Valid() && token !in codes && token !in sessions
      modifies `sessions, `codes
      ensures issued == AwaitsSetup(old(Contents()), e)
      ensures Contents() == Issued(old(Contents()), e, token, now + CODE_LIFETIME)
      ensures IssueLeft(old(Contents()), e, token, now + 15 * MINUTE, issued, Contents())
      ensures Valid()
    {
      hide Credentials, Registered, IssueLeft, UpgradeLeft;
      if e !in environments || environments[e].kind != Endpoint || environments[e].connection != SetupPending {
        IssuesAre(Contents(), e, token, now + CODE_LIFETIME);
        return false;
      }
      Reissue(e, token, environments[e].mode, now + CODE_LIFETIME);
      Keep(old(Contents()), Issue(e, token, now + CODE_LIFETIME));
      IssuesAre(old(Contents()), e, token, now + CODE_LIFETIME);
      return true;
    }

    method EnableContinuousMonitoring(e: string, token: string, now: int) returns (issued: bool)
      requires Valid() && token !in codes && token !in sessions
      modifies `sessions, `codes
      ensures issued == Upgradable(old(Contents()), e)
      ensures Contents() == Upgraded(old(Contents()), e, token, now + CODE_LIFETIME)
      ensures UpgradeLeft(old(Contents()), e, token, now + 15 * MINUTE, issued, Contents())
      ensures Valid()
    {
      hide Credentials, Registered, IssueLeft, UpgradeLeft;
      if e !in environments {
        IssuesAre(Contents(), e, token, now + CODE_LIFETIME);
        return false;
      }
      var env := environments[e];
      if env.kind != Endpoint || env.connection != Connected || env.mode != QuickScan || env.source.None?
         || (env.lastResult != Some(Complete) && env.lastResult != Some(Partial)) {
        IssuesAre(Contents(), e, token, now + CODE_LIFETIME);
        return false;
      }
      Reissue(e, token, Continuous, now + CODE_LIFETIME);
      Keep(old(Contents()), Upgrade(e, token, now + CODE_LIFETIME));
      IssuesAre(old(Contents()), e, token, now + CODE_LIFETIME);
      return true;
    }

    method CreateHandoff(e: string, id: string, expires: int) returns (created: bool)
      requires Valid() && id !in handoffs
      modifies `handoffs
      ensures created == AwaitsSetup(old(Contents()), e)
      ensures Contents() == HandedOff(old(Contents()), e, id, expires)
      ensures HandoffLeft(old(Contents()), e, id, expires, created, Contents())
      ensures Valid()
    {
      hide Credentials, Registered, HandoffLeft;
      if e !in environments || environments[e].kind != Endpoint || environments[e].connection != SetupPending {
        HandoffIs(Contents(), e, id, expires);
        return false;
      }
      handoffs := map k | k in handoffs :: if handoffs[k].environment == e then handoffs[k].(revoked := true) else handoffs[k];
      handoffs := handoffs[id := Handoff(e, expires, false)];
      Keep(old(Contents()), HandOff(e, id, expires));
      HandoffIs(old(Contents()), e, id, expires);
      return true;
    }

    method RevokeHandoff(e: string, id: string) returns (found: bool)
      requires Valid()
      modifies `handoffs
      ensures Contents() == HandoffWithdrawn(old(Contents()), e, id)
      ensures HandoffEnded(old(Contents()), e, id, found, Contents())
      ensures Valid()
    {
      hide Credentials, Registered, HandoffEnded;
      if id !in handoffs || handoffs[id].environment != e || handoffs[id].revoked {
        HandoffEndedIs(Contents(), e, id);
        return false;
      }
      handoffs := handoffs[id := handoffs[id].(revoked := true)];
      Keep(old(Contents()), WithdrawHandoff(e, id));
      HandoffEndedIs(old(Contents()), e, id);
      return true;
    }

    method ResolveHandoff(id: string, token: string, now: int) returns (resolved: bool)
      requires Valid() && token !in codes && token !in sessions
      modifies `sessions, `codes
      ensures resolved == Opens(old(Contents()), id, now)
      ensures Contents() == Resolved(old(Contents()), id, token, now, now + CODE_LIFETIME)
      ensures ResolutionLeft(old(Contents()), id, token, now, now + 15 * MINUTE, resolved, Contents())
      ensures Valid()
    {
      hide Credentials, Registered, ResolutionLeft, IssueLeft;
      if id !in handoffs || handoffs[id].revoked || handoffs[id].expires <= now {
        ResolutionIs(Contents(), id, token, now, now + CODE_LIFETIME);
        return false;
      }
      resolved := IssueEndpointCredential(handoffs[id].environment, token, now);
      ResolutionIs(old(Contents()), id, token, now, now + CODE_LIFETIME);
    }

    // ----- Revocation -----

    method RevokeSource(s: string) returns (found: bool)
      requires Valid()
      modifies `sources, `tokens
      ensures Contents() == SourceWithdrawn(old(Contents()), s)
      ensures SourceEnded(old(Contents()), s, found, Contents())
      ensures Valid()
    {
      hide Credentials, Registered, SourceEnded;
      if s !in sources || sources[s].revoked {
        SourceEndedIs(Contents(), s);
        return false;
      }
      sources := sources[s := sources[s].(revoked := true)];
      tokens := map k | k in tokens && tokens[k] != s :: tokens[k];
      Keep(old(Contents()), WithdrawSource(s));
      SourceEndedIs(old(Contents()), s);
      return true;
    }

    method DeleteTokens(live: set<string>)
      modifies `tokens
      ensures tokens == map k | k in old(tokens) && old(tokens)[k] !in live :: old(tokens)[k]
    {
      ghost var was := tokens;
      var rest := live;
      while rest != {}
        invariant rest <= live
        invariant tokens == map k | k in was && !(was[k] in live - rest) :: was[k]
        decreases rest
      {
        var s :| s in rest;
        tokens := map k | k in tokens && tokens[k] != s :: tokens[k];
        rest := rest - {s};
      }
    }

    method Silence(target: TargetId)
      modifies `sources
      ensures sources == Silenced(old(sources), target)
    {
      sources := map s | s in sources :: if sources[s].target == target then sources[s].(revoked := true) else sources[s];
    }

    /** revokeFleetDevice deletes the tokens source by source. */
    method RevokeDevice(f: string) returns (found: bool)
      requires Valid()
      modifies `targets, `sources, `tokens
      ensures Contents() == DeviceWithdrawn(old(Contents()), f)
      ensures DeviceEnded(old(Contents()), f, found, Contents())
      ensures Valid()
    {
      hide Credentials, Registered, DeviceEnded, Silenced;
      if f !in targets || targets[f].targetType != Endpoint || targets[f].revoked {
        DeviceEndedIs(Contents(), f);
        return false;
      }
      var target := targets[f].id;
      var live := set s | s in sources && sources[s].target == target && !sources[s].revoked;
      DeleteTokens(live);
      Silence(target);
      targets := targets[f := targets[f].(revoked := true)];
      KeepRevoked(old(Contents()), "", f);
      DeviceEndedIs(old(Contents()), f);
      return true;
    }

    method CloseSetup(e: string)
      modifies `sessions, `codes, `handoffs
      ensures sessions == Settled(old(sessions), e, Cancelled) && codes == Closed(old(codes), e) && handoffs == Withdrawn(old(handoffs), e)
    {
      sessions := map k | k in sessions ::
        if sessions[k].environment == e && sessions[k].state == Pending then sessions[k].(state := Cancelled) else sessions[k];
      codes := map c | c in codes :: if codes[c].environment == Some(e) then codes[c].(revoked := true) else codes[c];
      handoffs := map k | k in handoffs :: if handoffs[k].environment == e then handoffs[k].(revoked := true) else handoffs[k];
    }

    method Disconnect(e: string) returns (found: bool)
      requires Valid()
      modifies `environments, `sessions, `codes, `handoffs, `sources, `tokens
      ensures Contents() == Parted(old(Contents()), e)
      ensures EnvironmentEnded(old(Contents()), e, found, Contents())
      ensures Valid()
    {
      hide Credentials, Registered, Settled, Closed, Withdrawn, EnvironmentEnded;
      if e !in environments || environments[e].connection == Enrollment.Disconnected {
        EnvironmentEndedIs(Contents(), e);
        return false;
      }
      var source := environments[e].source;
      environments := environments[e := environments[e].(connection := Enrollment.Disconnected)];
      CloseSetup(e);
      if source.Some? {
        if source.value in sources {
          sources := sources[source.value := sources[source.value].(revoked := true)];
        }
        tokens := map k | k in tokens && tokens[k] != source.value :: tokens[k];
      }
      KeepRevoked(old(Contents()), e, "");
      EnvironmentEndedIs(old(Contents()), e);
      return true;
    }

    // ----- The exchange -----

    /** The checks that read no more than the code and its setup, in their order. */
    method CheckCode(r: Request) returns (fault: Option<Reason>)
      requires r.code in codes
      ensures fault == var code := codes[r.code];
        if CredentialFault(policies, code, r.now).Some? then CredentialFault(policies, code, r.now) else RequestFault(environments, code, r)
    {
      var code := codes[r.code];
      if code.revoked { return Some(CredentialRevoked); }
      if code.expires <= r.now { return Some(CredentialExpired); }
      if code.uses <= 0 { return Some(CredentialExhausted); }
      if code.policy.Some? && code.policy.value in policies && policies[code.policy.value].revoked { return Some(PolicyRevoked); }
      if !r.hasProof { return Some(MissingProof); }
      if r.mode != code.mode { return Some(ModeMismatch); }
      if code.sourceType != Endpoint && code.mode != Continuous { return Some(UnsupportedMode); }
      if code.environment.Some? {
        var active := false;
        if code.environment.value in environments {
          var e := environments[code.environment.value];
          active := e.connection == SetupPending || (e.mode == QuickScan && code.mode == Continuous);
        }
        if !active { return Some(SetupInactive); }
      }
      if r.sourceType.Some? && r.sourceType.value != code.sourceType { return Some(TypeMismatch); }
      match code.sourceType {
        case Endpoint => if r.hostname == "" { return Some(MissingHostname); }
        case Kubernetes => if r.identity == "" { return Some(MissingIdentity); }
        case Repository => if !r.validRepository { return Some(InvalidRepository); }
      }
      if !r.validProof { return Some(InvalidProof); }
      return None;
    }

    method MoveSource(e: string, source: string, target: TargetId, mode: Mode)
      modifies `environments
      ensures environments == Bound(old(environments), e, source, target, mode)
    {
      environments := map id | id in environments ::
        if environments[id].source == Some(source) && id != e then environments[id].(connection := Enrollment.Disconnected, source := None) else environments[id];
      if e in environments {
        environments := environments[e := environments[e].(connection := Connected, target := Some(target), source := Some(source), mode := mode)];
      }
    }

    /** The setup session of the code, if there is one, is completed. */
    method CompleteSetup(r: Request, code: Code, target: TargetId, source: string)
      modifies `environments, `sessions, `handoffs
      ensures if Completes(old(sessions), code, r) then
                var e := old(sessions)[r.code].environment;
                && environments == Bound(old(environments), e, source, target, code.mode)
                && sessions == Settled(old(sessions), e, Consumed) && handoffs == Withdrawn(old(handoffs), e)
              else environments == old(environments) && sessions == old(sessions) && handoffs == old(handoffs)
    {
      hide Bound;
      if r.code !in sessions || sessions[r.code].kind != code.sourceType || sessions[r.code].state != Pending || sessions[r.code].expires <= r.now {
        return;
      }
      var e := sessions[r.code].environment;
      MoveSource(e, source, target, code.mode);
      sessions := map k | k in sessions ::
        if sessions[k].environment == e && sessions[k].state == Pending then sessions[k].(state := Consumed) else sessions[k];
      handoffs := map k | k in handoffs :: if handoffs[k].environment == e then handoffs[k].(revoked := true) else handoffs[k];
    }

    /** The source of the target: the live one is re-enrolled and loses its tokens. */
    method BindSource(r: Request, code: Code, target: TargetId, active: Option<string>) returns (source: string)
      requires active.Some? ==> active.value in sources
      modifies `sources, `tokens
      ensures source == if active.Some? then active.value else r.source
      ensures sources == SourcesAfter(old(sources), active, target, code, r)
      ensures tokens == if active.Some? then Without(old(tokens), source) else old(tokens)
    {
      if active.None? {
        source := r.source;
        sources := sources[source := Source(target, code.sourceType, code.mode, 0, false)];
      } else {
        source := active.value;
        sources := sources[source := sources[source].(mode := code.mode)];
        tokens := map k | k in tokens && tokens[k] != source :: tokens[k];
      }
    }

    /** The use of the code: a policy's credential is kept and counted. */
    method Consume(r: Request, code: Code, target: TargetId, source: string, again: bool)
      requires r.code in codes && codes[r.code] == code && code.uses > 0
      modifies `codes, `enrollments, `audit
      ensures codes == Used(old(codes), r.code)
      ensures enrollments == if code.policy.Some? then old(enrollments)[r.enrollment := Row(code.policy.value, r.code, target, source)] else old(enrollments)
      ensures audit == if code.policy.Some? then old(audit) + [Succeeded(code.policy.value, r.code, source, again)] else old(audit)
    {
      if code.policy.Some? {
        enrollments := enrollments[r.enrollment := Row(code.policy.value, r.code, target, source)];
        audit := audit + [Succeeded(code.policy.value, r.code, source, again)];
        codes := codes[r.code := code.(uses := code.uses - 1)];
      } else if code.uses <= 1 {
        codes := codes - {r.code};
      } else {
        codes := codes[r.code := code.(uses := code.uses - 1)];
      }
    }

    /** A refusal leaves an audit event for the use of a policy's credential only. */
    method Refuse(r: Request, reason: Reason)
      requires reason != DatabaseError && (reason == MissingCode <==> r.code == "")
      modifies `audit
      ensures Contents() == Denied(old(Contents()), r, reason)
    {
      if r.code != "" && r.code in codes && codes[r.code].policy.Some? {
        audit := audit + [Refused(codes[r.code].policy.value, r.code, reason)];
      }
    }

    /** The upsert of the target on its fingerprint; another target with the new id makes
        it fail. */
    method UpsertTarget(r: Request, code: Code) returns (stored: bool)
      modifies `targets
      ensures stored == !Clashes(old(targets), code, r)
      ensures targets == if stored then old(targets)[r.fingerprint := TargetAfter(old(targets), code, r)] else old(targets)
    {
      if r.fingerprint in targets {
        targets := targets[r.fingerprint := targets[r.fingerprint].(mode := code.mode)];
        return true;
      }
      var id := NewTargetId(code, r);
      if exists f :: f in targets && targets[f].id == id {
        return false;
      }
      targets := targets[r.fingerprint := Target(id, code.sourceType, code.mode, false)];
      return true;
    }

    /** The query for the live source of a target, whose row was just written. */
    method FindActive(target: TargetId, sourceType: SourceType, ghost before: map<string, Target>) returns (active: Option<string>)
      requires Registered(Contents().(targets := before))
      ensures active == ActiveSource(sources, target, sourceType)
    {
      var live := set s | s in sources && Live(sources, s, target, sourceType);
      if live == {} {
        assert forall s :: Live(sources, s, target, sourceType) ==> s in live;
        return None;
      }
      var s :| s in live;
      UniqueLive(Contents().(targets := before), s, target, sourceType);
      return Some(s);
    }

    /** The writes of an exchange after its checks. */
    method Grant(r: Request, code: Code, target: TargetId, active: Option<string>) returns (outcome: Outcome)
      requires r.code in codes && codes[r.code] == code && code.uses > 0
      requires active.Some? ==> Live(sources, active.value, target, code.sourceType)
      modifies `sources, `tokens, `environments, `sessions, `handoffs, `codes, `enrollments, `audit
      ensures var source := if active.Some? then active.value else r.source;
        && Contents() == Written(old(Contents()), r, code, target, active, source)
        && outcome.Granted? && outcome.source == source && outcome.target == target
        && source in sources && sources[source].target == target && outcome.sequence == sources[source].lastSequence
        && outcome.refresh == (if code.mode == Continuous then Some(r.refresh) else None)
    {
      hide SourcesAfter, Bound, Settled, Withdrawn, Used, Without, Completes;
      var source := BindSource(r, code, target, active);
      CompleteSetup(r, code, target, source);
      Consume(r, code, target, source, active.Some?);
      var refresh := None;
      if code.mode == Continuous {
        tokens := tokens[r.refresh := source];
        refresh := Some(r.refresh);
      }
      SourceIsBound(old(sources), active, target, code, r);
      return Granted(source, target, sources[source].lastSequence, refresh);
    }

    /** exchangeEnrollment. What the refused path has written by then is rolled back for a
        plain code; the use of a policy's credential is committed with its audit event. */
    method Exchange(r: Request) returns (outcome: Outcome)
      requires Valid() && r.source !in sources && r.enrollment !in enrollments && r.refresh !in tokens
      modifies this
      ensures Decides(old(Contents()), r, outcome)
      ensures outcome.Granted? ==> r.code in old(codes) && Leaves(old(Contents()), r, outcome.source, outcome.target, Contents())
      ensures outcome.Rejected? ==>
                && Contents() == old(Contents()).(audit := audit)
                && audit == old(audit) + (if outcome.reason != DatabaseError && r.code != "" && r.code in old(codes) && old(codes)[r.code].policy.Some?
                                          then [Refused(old(codes)[r.code].policy.value, r.code, outcome.reason)] else [])
      ensures var t := old(Contents());
        match Verdict(t, r)
        case Some(reason) => outcome == Rejected(reason) && Contents() == Denied(t, r, reason)
        case None =>
          && Contents() == Accepted(t, r) && outcome.Granted? && outcome.source == BoundSource(t, r)
          && outcome.source in sources && outcome.sequence == sources[outcome.source].lastSequence && outcome.target == sources[outcome.source].target
          && outcome.refresh == if t.codes[r.code].mode == Continuous then Some(r.refresh) else None
      ensures Valid()
    {
      hide Credentials, Registered, CredentialFault, RequestFault, TargetAfter, Clashes, ActiveSource, SourcesAfter,
           Bound, Settled, Withdrawn, Used, Without, Completes, Leaves, Decides, Enrolls, Denied;
      if r.code == "" {
        KeepRefused(old(Contents()), r, MissingCode);
        return Rejected(MissingCode);
      }
      if r.code !in codes {
        KeepRefused(old(Contents()), r, UnknownCode);
        return Rejected(UnknownCode);
      }
      var fault := CheckCode(r);
      if fault.Some? {
        FaultIsPlain(Contents(), r);
        Refuse(r, fault.value);
        KeepRefused(old(Contents()), r, fault.value);
        return Rejected(fault.value);
      }
      var code := codes[r.code];
      if r.fingerprint in targets && targets[r.fingerprint].revoked {
        Refuse(r, DeviceRevoked);
        KeepRefused(old(Contents()), r, DeviceRevoked);
        return Rejected(DeviceRevoked);
      }
      var before := targets;
      var stored := UpsertTarget(r, code);
      if !stored {
        KeepRefused(old(Contents()), r, DatabaseError);
        return Rejected(DatabaseError);
      }
      var target := targets[r.fingerprint].id;
      assert Registered(old(Contents()));
      var active := FindActive(target, code.sourceType, before);
      ActiveIsLive(sources, target, code.sourceType);
      if active.Some? && sources[active.value].mode == Continuous && code.mode == QuickScan {
        if code.policy.None? {
          targets := before;
        } else {
          PolicyCodesAreContinuous(old(Contents()), r.code);
        }
        Refuse(r, ContinuousActive);
        KeepRefused(old(Contents()), r, ContinuousActive);
        return Rejected(ContinuousActive);
      }
      if !r.stored {
        targets := before;
        KeepRefused(old(Contents()), r, DatabaseError);
        return Rejected(DatabaseError);
      }
      UsesRemain(old(Contents()), r);
      outcome := Grant(r, code, target, active);
      KeepExchange(old(Contents()), r, outcome);
    }
  }

  /** What the answer says about the request: granted exactly when every check holds, and
      otherwise refused for the first one that does not. */
  ghost predicate Decides(t: Tables, r: Request, outcome: Outcome) {
    if r.code == "" then outcome == Rejected(MissingCode)
    else if r.code !in t.codes then outcome == Rejected(UnknownCode)
    else
      && (outcome.Granted? <==> forall check :: Holds(t, r, check))
      && (forall check :: Fails(t, r, check) ==> outcome == Rejected(ReasonOf(check)))
  }

  lemma RegisteredSole(t: Tables)
    requires Registered(t)
    ensures Sole(t)
  {
    forall s, v, target, sourceType | Live(t.sources, s, target, sourceType) && Live(t.sources, v, target, sourceType)
      ensures s == v
    {
      assert !Doubled(t, s, v);
    }
  }

  lemma ExchangeStated(t: Tables, r: Request, outcome: Outcome)
    requires Registered(t) && Fresh(t, EnrollmentRuns.Exchange(r))
    requires if Verdict(t, r).Some? then outcome == Rejected(Verdict(t, r).value)
             else outcome.Granted? && outcome.source == Enrolls(t, r).0 && outcome.target == Enrolls(t, r).1
    ensures Decides(t, r, outcome)
    ensures outcome.Granted? ==> r.code in t.codes && Leaves(t, r, outcome.source, outcome.target, Exchanged(t, r))
  {
    hide Verdict, CredentialFault, RequestFault, Holds, Fails, ReasonOf, Leaves, Accepted, Sole, Enrolls;
    RegisteredSole(t);
    EarlyRefusals(t, r);
    if r.code in t.codes {
      VerdictIs(t, r);
    }
    if Verdict(t, r).None? {
      ExchangeLeaves(t, r);
    }
  }

  lemma EarlyRefusals(t: Tables, r: Request)
    ensures r.code == "" ==> Verdict(t, r) == Some(MissingCode)
    ensures r.code != "" && r.code !in t.codes ==> Verdict(t, r) == Some(UnknownCode)
  {
  }

  lemma UniqueLive(t: Tables, s: string, target: TargetId, sourceType: SourceType)
    requires Registered(t) && Live(t.sources, s, target, sourceType)
    ensures ActiveSource(t.sources, target, sourceType) == Some(s)
  {
    forall v | Live(t.sources, v, target, sourceType)
      ensures v == s
    {
      assert !Doubled(t, s, v);
    }
  }

  lemma ActiveIsLive(sources: Sources, target: TargetId, sourceType: SourceType)
    ensures ActiveSource(sources, target, sourceType).Some? ==> Live(sources, ActiveSource(sources, target, sourceType).value, target, sourceType)
  {
  }

  lemma FaultIsPlain(t: Tables, r: Request)
    requires r.code in t.codes
    ensures CredentialFault(t.policies, t.codes[r.code], r.now) != Some(DatabaseError) && RequestFault(t.environments, t.codes[r.code], r) != Some(DatabaseError)
    ensures CredentialFault(t.policies, t.codes[r.code], r.now) != Some(MissingCode) && RequestFault(t.environments, t.codes[r.code], r) != Some(MissingCode)
  {
  }

  lemma PolicyCodesAreContinuous(t: Tables, c: string)
    requires Credentials(t) && c in t.codes && t.codes[c].policy.Some?
    ensures t.codes[c].mode == Continuous
  {
    assert PolicyCodeSound(t, c);
  }

  lemma UsesRemain(t: Tables, r: Request)
    requires r.code in t.codes && CredentialFault(t.policies, t.codes[r.code], r.now).None?
    ensures t.codes[r.code].uses > 0
  {
  }

  lemma SourceIsBound(sources: Sources, active: Option<string>, target: TargetId, code: Code, r: Request)
    requires active.Some? ==> Live(sources, active.value, target, code.sourceType)
    ensures var source := if active.Some? then active.value else r.source;
      source in SourcesAfter(sources, active, target, code, r) && SourcesAfter(sources, active, target, code, r)[source].target == target
  {
  }
}
