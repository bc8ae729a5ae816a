/** What each enrollment request checks and what it leaves behind, row by row. */
module Requests {
  import opened Options
  import opened Enrollment

  // ----- The checks of an exchange -----

  datatype Check =
    | HasCode | KnownCode | LiveCode | TimelyCode | UsesLeft | LivePolicy
    | HasProof | SameMode | KnownMode | OpenSetup | SameType | HasHostname | HasIdentity | NamesRepository | ValidProof
    | LiveDevice | OwnTarget | NoDowngrade | TakenByDatabase

  /** The order of the checks. */
  function Place(check: Check): nat {
    match check
    case HasCode => 0
    case KnownCode => 1
    case LiveCode => 2
    case TimelyCode => 3
    case UsesLeft => 4
    case LivePolicy => 5
    case HasProof => 6
    case SameMode => 7
    case KnownMode => 8
    case OpenSetup => 9
    case SameType => 10
    case HasHostname => 11
    case HasIdentity => 12
    case NamesRepository => 13
    case ValidProof => 14
    case LiveDevice => 15
    case OwnTarget => 16
    case NoDowngrade => 17
    case TakenByDatabase => 18
  }

  function ReasonOf(check: Check): Reason {
    match check
    case HasCode => MissingCode
    case KnownCode => UnknownCode
    case LiveCode => CredentialRevoked
    case TimelyCode => CredentialExpired
    case UsesLeft => CredentialExhausted
    case LivePolicy => PolicyRevoked
    case HasProof => MissingProof
    case SameMode => ModeMismatch
    case KnownMode => UnsupportedMode
    case OpenSetup => SetupInactive
    case SameType => TypeMismatch
    case HasHostname => MissingHostname
    case HasIdentity => MissingIdentity
    case NamesRepository => InvalidRepository
    case ValidProof => InvalidProof
    case LiveDevice => DeviceRevoked
    case OwnTarget => DatabaseError
    case NoDowngrade => ContinuousActive
    case TakenByDatabase => DatabaseError
  }

  /** The target that the fingerprint has, or else gets. */
  predicate Means(t: Tables, r: Request, id: TargetId)
    requires r.code in t.codes
  {
    if r.fingerprint in t.targets then id == t.targets[r.fingerprint].id
    else match t.codes[r.code].sourceType
      case Endpoint => id == Installation(r.fingerprint)
      case Kubernetes => id == Cluster(r.identity)
      case Repository => id == Repo(r.identity)
  }

  /** The fact that a check looks at, for a code that is known. */
  ghost predicate Holds(t: Tables, r: Request, check: Check)
    requires r.code in t.codes
  {
    var code := t.codes[r.code];
    match check
    case HasCode => r.code != ""
    case KnownCode => true
    case LiveCode => !code.revoked
    case TimelyCode => r.now < code.expires
    case UsesLeft => code.uses > 0
    case LivePolicy => code.policy.None? || code.policy.value !in t.policies || !t.policies[code.policy.value].revoked
    case HasProof => r.hasProof
    case SameMode => r.mode == code.mode
    case KnownMode => code.sourceType == Endpoint || code.mode == Continuous
    case OpenSetup =>
      code.environment.Some? ==>
        code.environment.value in t.environments
        && var e := t.environments[code.environment.value];
           e.connection == SetupPending || (e.mode == QuickScan && code.mode == Continuous)
    case SameType => r.sourceType.None? || r.sourceType.value == code.sourceType
    case HasHostname => code.sourceType == Endpoint ==> r.hostname != ""
    case HasIdentity => code.sourceType == Kubernetes ==> r.identity != ""
    case NamesRepository => code.sourceType == Repository ==> r.validRepository
    case ValidProof => r.validProof
    case LiveDevice => r.fingerprint in t.targets ==> !t.targets[r.fingerprint].revoked
    case OwnTarget => r.fingerprint in t.targets || forall f :: f in t.targets ==> !Means(t, r, t.targets[f].id)
    case NoDowngrade =>
      code.mode == QuickScan ==>
        forall s :: s in t.sources && !t.sources[s].revoked && t.sources[s].sourceType == code.sourceType && Means(t, r, t.sources[s].target) ==>
                      t.sources[s].mode == QuickScan
    case TakenByDatabase => r.stored
  }

  /** The first check that the request does not pass. */
  ghost predicate Fails(t: Tables, r: Request, check: Check)
    requires r.code in t.codes
  {
    !Holds(t, r, check) && forall other: Check :: Place(other) < Place(check) ==> Holds(t, r, other)
  }

  /** At most one live source of a type for a target. */
  ghost predicate Sole(t: Tables) {
    forall s, v, target, sourceType :: Live(t.sources, s, target, sourceType) && Live(t.sources, v, target, sourceType) ==> s == v
  }

  ghost predicate CredentialHolds(t: Tables, r: Request)
    requires r.code in t.codes
  {
    Holds(t, r, LiveCode) && Holds(t, r, TimelyCode) && Holds(t, r, UsesLeft) && Holds(t, r, LivePolicy)
  }

  ghost predicate RequestHolds(t: Tables, r: Request)
    requires r.code in t.codes
  {
    && Holds(t, r, HasProof) && Holds(t, r, SameMode) && Holds(t, r, KnownMode) && Holds(t, r, OpenSetup) && Holds(t, r, SameType)
    && Holds(t, r, HasHostname) && Holds(t, r, HasIdentity) && Holds(t, r, NamesRepository) && Holds(t, r, ValidProof)
  }

  lemma CredentialChecked(t: Tables, r: Request)
    requires r.code in t.codes
    ensures CredentialFault(t.policies, t.codes[r.code], r.now) ==
            if !Holds(t, r, LiveCode) then Some(ReasonOf(LiveCode))
            else if !Holds(t, r, TimelyCode) then Some(ReasonOf(TimelyCode))
            else if !Holds(t, r, UsesLeft) then Some(ReasonOf(UsesLeft))
            else if !Holds(t, r, LivePolicy) then Some(ReasonOf(LivePolicy))
            else None
  {
  }

  lemma RequestChecked(t: Tables, r: Request)
    requires r.code in t.codes
    ensures RequestFault(t.environments, t.codes[r.code], r) ==
            if !Holds(t, r, HasProof) then Some(ReasonOf(HasProof))
            else if !Holds(t, r, SameMode) then Some(ReasonOf(SameMode))
            else if !Holds(t, r, KnownMode) then Some(ReasonOf(KnownMode))
            else if !Holds(t, r, OpenSetup) then Some(ReasonOf(OpenSetup))
            else if !Holds(t, r, SameType) then Some(ReasonOf(SameType))
            else if !Holds(t, r, HasHostname) then Some(ReasonOf(HasHostname))
            else if !Holds(t, r, HasIdentity) then Some(ReasonOf(HasIdentity))
            else if !Holds(t, r, NamesRepository) then Some(ReasonOf(NamesRepository))
            else if !Holds(t, r, ValidProof) then Some(ReasonOf(ValidProof))
            else None
  {
  }

  lemma MeansTarget(t: Tables, r: Request, id: TargetId)
    requires r.code in t.codes
    ensures Means(t, r, id) <==> id == TargetAfter(t.targets, t.codes[r.code], r).id
    ensures Holds(t, r, OwnTarget) <==> !Clashes(t.targets, t.codes[r.code], r)
  {
  }

  lemma ActiveChecked(t: Tables, r: Request)
    requires r.code in t.codes && Sole(t)
    ensures var code := t.codes[r.code];
      var active := ActiveSource(t.sources, TargetAfter(t.targets, code, r).id, code.sourceType);
      Holds(t, r, NoDowngrade) <==> !(active.Some? && t.sources[active.value].mode == Continuous && code.mode == QuickScan)
  {
    hide TargetAfter, Means;
    var code := t.codes[r.code];
    var id := TargetAfter(t.targets, code, r).id;
    forall other ensures Means(t, r, other) <==> other == id { MeansTarget(t, r, other); }
    if s :| Live(t.sources, s, id, code.sourceType) {
      assert ActiveSource(t.sources, id, code.sourceType) == Some(s);
    }
    forall s ensures Live(t.sources, s, id, code.sourceType) <==>
                       s in t.sources && !t.sources[s].revoked && t.sources[s].sourceType == code.sourceType && Means(t, r, t.sources[s].target) {}
  }

  lemma VerdictChecked(t: Tables, r: Request)
    requires r.code in t.codes && Sole(t)
    ensures Verdict(t, r) ==
            if !Holds(t, r, HasCode) then Some(ReasonOf(HasCode))
            else if !CredentialHolds(t, r) then CredentialFault(t.policies, t.codes[r.code], r.now)
            else if !RequestHolds(t, r) then RequestFault(t.environments, t.codes[r.code], r)
            else if !Holds(t, r, LiveDevice) then Some(ReasonOf(LiveDevice))
            else if !Holds(t, r, OwnTarget) then Some(ReasonOf(OwnTarget))
            else if !Holds(t, r, NoDowngrade) then Some(ReasonOf(NoDowngrade))
            else if !Holds(t, r, TakenByDatabase) then Some(ReasonOf(TakenByDatabase))
            else None
  {
    hide CredentialFault, RequestFault, TargetAfter, Clashes, ActiveSource, Means, Sole, Holds;
    CredentialChecked(t, r);
    RequestChecked(t, r);
    MeansTarget(t, r, Installation(""));
    ActiveChecked(t, r);
    EndChecked(t, r);
  }

  lemma EndChecked(t: Tables, r: Request)
    requires r.code in t.codes
    ensures Holds(t, r, HasCode) <==> r.code != ""
    ensures Holds(t, r, LiveDevice) <==> !(r.fingerprint in t.targets && t.targets[r.fingerprint].revoked)
    ensures Holds(t, r, TakenByDatabase) <==> r.stored
    ensures Holds(t, r, KnownCode)
  {
  }

  ghost predicate EndHolds(t: Tables, r: Request)
    requires r.code in t.codes
  {
    Holds(t, r, LiveDevice) && Holds(t, r, OwnTarget) && Holds(t, r, NoDowngrade) && Holds(t, r, TakenByDatabase)
  }

  lemma AllHold(t: Tables, r: Request)
    requires r.code in t.codes && Holds(t, r, HasCode) && CredentialHolds(t, r) && RequestHolds(t, r) && EndHolds(t, r)
    ensures forall check :: Holds(t, r, check)
  {
    EndChecked(t, r);
    hide Holds;
    forall check
      ensures Holds(t, r, check)
    {
      match check
      case _ =>
    }
  }

  lemma CredentialFails(t: Tables, r: Request, check: Check)
    requires r.code in t.codes && Fails(t, r, check) && Place(check) < 6
    ensures Verdict(t, r) == Some(ReasonOf(check))
  {
    hide Holds, CredentialFault, RequestFault, Verdict, ReasonOf, Sole;
    assert check == LiveCode || Holds(t, r, LiveCode) || check == HasCode || check == KnownCode;
    CredentialChecked(t, r);
    EndChecked(t, r);
    EarlyVerdict(t, r);
  }

  lemma RequestFails(t: Tables, r: Request, check: Check)
    requires r.code in t.codes && Fails(t, r, check) && 6 <= Place(check) < 15
    ensures Verdict(t, r) == Some(ReasonOf(check))
  {
    hide Holds, CredentialFault, RequestFault, Verdict, ReasonOf, Sole;
    assert Holds(t, r, HasCode) && CredentialHolds(t, r);
    CredentialChecked(t, r);
    RequestChecked(t, r);
    EndChecked(t, r);
    EarlyVerdict(t, r);
  }

  lemma EarlyVerdict(t: Tables, r: Request)
    requires r.code in t.codes
    ensures !Holds(t, r, HasCode) ==> Verdict(t, r) == Some(ReasonOf(HasCode))
    ensures Holds(t, r, HasCode) && CredentialFault(t.policies, t.codes[r.code], r.now).Some? ==>
              Verdict(t, r) == CredentialFault(t.policies, t.codes[r.code], r.now)
    ensures Holds(t, r, HasCode) && CredentialFault(t.policies, t.codes[r.code], r.now).None?
            && RequestFault(t.environments, t.codes[r.code], r).Some? ==>
              Verdict(t, r) == RequestFault(t.environments, t.codes[r.code], r)
  {
    hide CredentialFault, RequestFault, TargetAfter, ActiveSource, Clashes;
  }

  lemma EndFails(t: Tables, r: Request, check: Check)
    requires r.code in t.codes && Sole(t) && Fails(t, r, check) && 15 <= Place(check)
    ensures Verdict(t, r) == Some(ReasonOf(check))
  {
    hide Holds, CredentialFault, RequestFault, Verdict, ReasonOf, Sole;
    assert Holds(t, r, HasCode) && CredentialHolds(t, r) && RequestHolds(t, r);
    VerdictChecked(t, r);
  }

  /** An exchange with a known code is accepted exactly when all facts hold, and otherwise
      refused for the first one that does not. */
  lemma VerdictIs(t: Tables, r: Request)
    requires r.code in t.codes && Sole(t)
    ensures Verdict(t, r).None? <==> forall check :: Holds(t, r, check)
    ensures forall check :: Fails(t, r, check) ==> Verdict(t, r) == Some(ReasonOf(check))
  {
    hide Verdict, CredentialFault, RequestFault, Holds, Sole, ReasonOf, Fails, Place;
    VerdictChecked(t, r);
    CredentialChecked(t, r);
    RequestChecked(t, r);
    if Verdict(t, r).None? {
      AllHold(t, r);
    } else {
      assert !Holds(t, r, HasCode) || !CredentialHolds(t, r) || !RequestHolds(t, r) || !EndHolds(t, r);
    }
    forall check | Fails(t, r, check)
      ensures Verdict(t, r) == Some(ReasonOf(check))
    {
      if Place(check) < 6 {
        CredentialFails(t, r, check);
      } else if Place(check) < 15 {
        RequestFails(t, r, check);
      } else {
        EndFails(t, r, check);
      }
    }
  }

  // ----- What an accepted exchange leaves behind -----

  /** The target of the fingerprint; it takes the mode of the code. */
  predicate TargetLeft(t: Tables, r: Request, target: TargetId, next: Tables)
    requires r.code in t.codes
  {
    && next.targets.Keys == t.targets.Keys + {r.fingerprint} && Means(t, r, target)
    && next.targets[r.fingerprint].id == target && next.targets[r.fingerprint].mode == t.codes[r.code].mode
    && (r.fingerprint in t.targets ==>
          && next.targets[r.fingerprint].targetType == t.targets[r.fingerprint].targetType
          && next.targets[r.fingerprint].revoked == t.targets[r.fingerprint].revoked)
    && (r.fingerprint !in t.targets ==> next.targets[r.fingerprint].targetType == t.codes[r.code].sourceType && !next.targets[r.fingerprint].revoked)
    && forall f :: f in t.targets && f != r.fingerprint ==> next.targets[f] == t.targets[f]
  }

  /** The live source of the target, which keeps its sequence, or else a new one. */
  predicate SourceLeft(t: Tables, r: Request, source: string, target: TargetId, next: Tables)
    requires r.code in t.codes
  {
    && next.sources.Keys == t.sources.Keys + {source}
    && next.sources[source].target == target && next.sources[source].sourceType == t.codes[r.code].sourceType
    && next.sources[source].mode == t.codes[r.code].mode && !next.sources[source].revoked
    && (source in t.sources ==>
          && !t.sources[source].revoked && t.sources[source].target == target && t.sources[source].sourceType == t.codes[r.code].sourceType
          && next.sources[source].lastSequence == t.sources[source].lastSequence)
    && (source !in t.sources ==>
          && source == r.source && next.sources[source].lastSequence == 0
          && forall s :: s in t.sources && t.sources[s].target == target && t.sources[s].sourceType == t.codes[r.code].sourceType ==> t.sources[s].revoked)
    && forall s :: s in t.sources && s != source ==> next.sources[s] == t.sources[s]
  }

  /** The code has one use less; one without a policy goes with its last use. */
  predicate CodeLeft(t: Tables, r: Request, next: Tables)
    requires r.code in t.codes
  {
    var code := t.codes[r.code];
    && (code.policy.Some? || code.uses > 1 ==>
          r.code in next.codes && next.codes[r.code].uses == code.uses - 1 && next.codes[r.code] == code.(uses := next.codes[r.code].uses))
    && (code.policy.None? && code.uses <= 1 ==> r.code !in next.codes)
    && next.codes.Keys <= t.codes.Keys
    && forall c :: c in t.codes && c != r.code ==> c in next.codes && next.codes[c] == t.codes[c]
  }

  /** The use of a policy's credential leaves a row and an event. */
  predicate UseLeft(t: Tables, r: Request, source: string, target: TargetId, next: Tables)
    requires r.code in t.codes
  {
    match t.codes[r.code].policy
    case None => next.enrollments == t.enrollments && next.audit == t.audit
    case Some(policy) =>
      && next.enrollments.Keys == t.enrollments.Keys + {r.enrollment}
      && next.enrollments[r.enrollment].policy == policy && next.enrollments[r.enrollment].credential == r.code
      && next.enrollments[r.enrollment].target == target && next.enrollments[r.enrollment].source == source
      && (forall k :: k in t.enrollments && k != r.enrollment ==> next.enrollments[k] == t.enrollments[k])
      && next.audit == t.audit + [Succeeded(policy, r.code, source, source in t.sources)]
  }

  /** A refresh token for continuous monitoring; a source that was there loses its old ones. */
  ghost predicate TokensLeft(t: Tables, r: Request, source: string, next: Tables)
    requires r.code in t.codes
  {
    && (t.codes[r.code].mode == Continuous ==> r.refresh in next.tokens && next.tokens[r.refresh] == source)
    && forall k :: k != r.refresh || t.codes[r.code].mode == QuickScan ==>
                     && (k in next.tokens <==> k in t.tokens && (source in t.sources ==> t.tokens[k] != source))
                     && (k in next.tokens ==> next.tokens[k] == t.tokens[k])
  }

  /** The code's setup session is still open. */
  predicate OpenSession(t: Tables, r: Request)
    requires r.code in t.codes
  {
    && r.code in t.sessions && t.sessions[r.code].kind == t.codes[r.code].sourceType
    && t.sessions[r.code].state == Pending && r.now < t.sessions[r.code].expires
  }

  predicate EnvironmentLeft(t: Tables, e: string, source: string, target: TargetId, mode: Mode, next: Tables, id: string) {
    id in t.environments ==>
      && id in next.environments
      && next.environments[id].kind == t.environments[id].kind && next.environments[id].lastResult == t.environments[id].lastResult
      && (id == e ==> && next.environments[id].connection == Connected && next.environments[id].mode == mode
                      && next.environments[id].source == Some(source) && next.environments[id].target == Some(target))
      && (id != e && t.environments[id].source == Some(source) ==>
            && next.environments[id].connection == Disconnected && next.environments[id].source == None
            && next.environments[id].mode == t.environments[id].mode && next.environments[id].target == t.environments[id].target)
      && (id != e && t.environments[id].source != Some(source) ==> next.environments[id] == t.environments[id])
  }

  /** The pending sessions of an environment end in a state, and no other changes. */
  predicate SessionsLeft(was: Sessions, e: string, state: SessionState, next: Sessions, k: string) {
    && (k in was ==> k in next && next[k] == was[k].(state := next[k].state))
    && (k in was && was[k].environment == e && was[k].state == Pending ==> next[k].state == state)
    && (k in was && !(was[k].environment == e && was[k].state == Pending) ==> next[k].state == was[k].state)
  }

  predicate HandoffsLeft(was: Handoffs, e: string, next: Handoffs, h: string) {
    && (h in was ==> h in next && next[h] == was[h].(revoked := next[h].revoked))
    && (h in was ==> (next[h].revoked <==> was[h].revoked || was[h].environment == e))
  }

  /** An open setup is completed: its environment gets the source, the one that had it loses
      it, the pending sessions are consumed and the handoffs withdrawn. */
  ghost predicate SetupLeft(t: Tables, r: Request, source: string, target: TargetId, next: Tables)
    requires r.code in t.codes
  {
    if OpenSession(t, r) then
      var e := t.sessions[r.code].environment;
      && next.environments.Keys == t.environments.Keys && next.sessions.Keys == t.sessions.Keys && next.handoffs.Keys == t.handoffs.Keys
      && (forall id :: EnvironmentLeft(t, e, source, target, t.codes[r.code].mode, next, id))
      && (forall k :: SessionsLeft(t.sessions, e, Consumed, next.sessions, k))
      && (forall h :: HandoffsLeft(t.handoffs, e, next.handoffs, h))
    else next.environments == t.environments && next.sessions == t.sessions && next.handoffs == t.handoffs
  }

  ghost predicate Leaves(t: Tables, r: Request, source: string, target: TargetId, next: Tables)
    requires r.code in t.codes
  {
    && next.policies == t.policies && TargetLeft(t, r, target, next) && SourceLeft(t, r, source, target, next) && CodeLeft(t, r, next)
    && UseLeft(t, r, source, target, next) && TokensLeft(t, r, source, next) && SetupLeft(t, r, source, target, next)
  }

  /** The source and the target of an accepted exchange. */
  ghost function Enrolls(t: Tables, r: Request): (string, TargetId)
    requires r.code in t.codes
  {
    var target := TargetAfter(t.targets, t.codes[r.code], r).id;
    var active := ActiveSource(t.sources, target, t.codes[r.code].sourceType);
    (if active.Some? then active.value else r.source, target)
  }

  lemma AcceptedParts(t: Tables, r: Request)
    requires Verdict(t, r).None?
    ensures r.code in t.codes && t.codes[r.code].uses > 0
    ensures var code, next, source, target := t.codes[r.code], Accepted(t, r), Enrolls(t, r).0, Enrolls(t, r).1;
      var active := ActiveSource(t.sources, target, code.sourceType);
      && next.policies == t.policies && next.codes == Used(t.codes, r.code)
      && next.targets == t.targets[r.fingerprint := TargetAfter(t.targets, code, r)]
      && next.sources == SourcesAfter(t.sources, active, target, code, r)
      && next.tokens == (var tokens := if active.Some? then Without(t.tokens, source) else t.tokens; if code.mode == Continuous then tokens[r.refresh := source] else tokens)
      && next.enrollments == (if code.policy.Some? then t.enrollments[r.enrollment := Row(code.policy.value, r.code, target, source)] else t.enrollments)
      && next.audit == (if code.policy.Some? then t.audit + [Succeeded(code.policy.value, r.code, source, active.Some?)] else t.audit)
      && (if Completes(t.sessions, code, r) then
            var e := t.sessions[r.code].environment;
            && next.environments == Bound(t.environments, e, source, target, code.mode)
            && next.sessions == Settled(t.sessions, e, Consumed) && next.handoffs == Withdrawn(t.handoffs, e)
          else next.environments == t.environments && next.sessions == t.sessions && next.handoffs == t.handoffs)
  {
    hide Used, Bound, Settled, Withdrawn, SourcesAfter, TargetAfter, Completes, Without, RequestFault;
  }

  lemma LeavesTarget(t: Tables, r: Request, next: Tables)
    requires r.code in t.codes && next.targets == t.targets[r.fingerprint := TargetAfter(t.targets, t.codes[r.code], r)]
    ensures TargetLeft(t, r, Enrolls(t, r).1, next)
  {
    MeansTarget(t, r, Enrolls(t, r).1);
  }

  lemma LeavesSource(t: Tables, r: Request, next: Tables)
    requires r.code in t.codes && r.source !in t.sources
    requires var code := t.codes[r.code];
      next.sources == SourcesAfter(t.sources, ActiveSource(t.sources, Enrolls(t, r).1, code.sourceType), Enrolls(t, r).1, code, r)
    ensures SourceLeft(t, r, Enrolls(t, r).0, Enrolls(t, r).1, next)
    ensures Enrolls(t, r).0 in t.sources <==> ActiveSource(t.sources, Enrolls(t, r).1, t.codes[r.code].sourceType).Some?
  {
    hide TargetAfter;
    var target, sourceType := Enrolls(t, r).1, t.codes[r.code].sourceType;
    if ActiveSource(t.sources, target, sourceType).None? {
      forall s | s in t.sources && t.sources[s].target == target && t.sources[s].sourceType == sourceType
        ensures t.sources[s].revoked
      {
        assert !Live(t.sources, s, target, sourceType);
      }
    }
  }

  lemma LeavesSetup(t: Tables, r: Request, source: string, target: TargetId, next: Tables)
    requires r.code in t.codes
    requires if Completes(t.sessions, t.codes[r.code], r) then
               var e := t.sessions[r.code].environment;
               && next.environments == Bound(t.environments, e, source, target, t.codes[r.code].mode)
               && next.sessions == Settled(t.sessions, e, Consumed) && next.handoffs == Withdrawn(t.handoffs, e)
             else next.environments == t.environments && next.sessions == t.sessions && next.handoffs == t.handoffs
    ensures SetupLeft(t, r, source, target, next)
  {
  }

  /** An accepted exchange leaves its target, its source, one use less, the row of a policy,
      a token and a completed setup, and nothing else. */
  lemma ExchangeLeaves(t: Tables, r: Request)
    requires Verdict(t, r).None? && r.source !in t.sources
    ensures r.code in t.codes && Leaves(t, r, Enrolls(t, r).0, Enrolls(t, r).1, Accepted(t, r))
  {
    hide Verdict, Accepted, TargetLeft, SourceLeft, SetupLeft, Completes, Bound, Settled, Withdrawn, TargetAfter, SourcesAfter, ActiveSource;
    AcceptedParts(t, r);
    var next := Accepted(t, r);
    LeavesTarget(t, r, next);
    LeavesSource(t, r, next);
    LeavesSetup(t, r, Enrolls(t, r).0, Enrolls(t, r).1, next);
  }

  // ----- What the other requests leave behind -----

  const MINUTE := 60
  const DAY := 86400

  /** Every other code stays, but for its revocation if `revokes` says so. */
  ghost predicate CodesRevoked(was: Codes, next: Codes, revokes: set<string>) {
    forall c :: c in was && c in next ==>
                  next[c] == was[c].(revoked := next[c].revoked) && (next[c].revoked <==> was[c].revoked || c in revokes)
  }

  /** A credential of a live policy, for a minute to thirty days and one to 100000 uses,
      takes the place of the policy's others. */
  ghost predicate RotationLeft(t: Tables, policy: string, code: string, now: int, lifetime: int, uses: nat, issued: bool, next: Tables) {
    && (issued <==> && policy in t.policies && !t.policies[policy].revoked && MINUTE <= lifetime <= 30 * DAY && 1 <= uses <= 100000)
    && (!issued ==> next == t)
    && (issued ==>
          && next == t.(codes := next.codes) && next.codes.Keys == t.codes.Keys + {code}
          && (var c := next.codes[code];
              && c.policy == Some(policy) && c.environment.None? && c.sourceType == t.policies[policy].sourceType && c.mode == Continuous
              && c.expires == now + lifetime && c.uses == c.maxUses == uses && !c.revoked)
          && CodesRevoked(t.codes, next.codes - {code}, set c | c in t.codes && t.codes[c].policy == Some(policy)))
  }

  lemma RotationIs(t: Tables, policy: string, code: string, now: int, lifetime: int, uses: nat)
    requires code !in t.codes
    ensures RotationLeft(t, policy, code, now, lifetime, uses, code in Rotated(t, policy, code, now, lifetime, uses).codes,
                         Rotated(t, policy, code, now, lifetime, uses))
  {
  }

  ghost predicate WithdrawalLeft(t: Tables, policy: string, code: string, found: bool, next: Tables) {
    && (found <==> code in t.codes && t.codes[code].policy == Some(policy) && !t.codes[code].revoked)
    && next == t.(codes := next.codes) && next.codes.Keys == t.codes.Keys
    && CodesRevoked(t.codes, next.codes, if found then {code} else {})
  }

  ghost predicate PolicyLeft(t: Tables, policy: string, found: bool, next: Tables) {
    && (found <==> policy in t.policies && !t.policies[policy].revoked)
    && next == t.(codes := next.codes, policies := next.policies) && next.codes.Keys == t.codes.Keys && next.policies.Keys == t.policies.Keys
    && (forall p :: p in t.policies ==>
          next.policies[p].sourceType == t.policies[p].sourceType && (next.policies[p].revoked <==> t.policies[p].revoked || (found && p == policy)))
    && CodesRevoked(t.codes, next.codes, if found then set c | c in t.codes && t.codes[c].policy == Some(policy) else {})
  }

  lemma WithdrawalIs(t: Tables, policy: string, code: string)
    ensures WithdrawalLeft(t, policy, code, code in t.codes && t.codes[code].policy == Some(policy) && !t.codes[code].revoked,
                           CredentialWithdrawn(t, policy, code))
  {
  }

  lemma PolicyWithdrawalIs(t: Tables, policy: string)
    ensures PolicyLeft(t, policy, policy in t.policies && !t.policies[policy].revoked, PolicyWithdrawn(t, policy))
  {
    hide CodesRevoked;
    UnusedIs(t.codes, policy);
  }

  lemma UnusedIs(codes: Codes, policy: string)
    ensures Unused(codes, policy).Keys == codes.Keys
    ensures CodesRevoked(codes, Unused(codes, policy), set c | c in codes && codes[c].policy == Some(policy))
    ensures CodesRevoked(codes, codes, {})
  {
  }

  /** A new setup token for the environment takes the place of the old ones. */
  ghost predicate TokenIssued(t: Tables, e: string, token: string, mode: Mode, expires: int, next: Tables) {
    && next == t.(sessions := next.sessions, codes := next.codes)
    && next.sessions.Keys == t.sessions.Keys + {token} && next.codes.Keys == t.codes.Keys + {token}
    && next.sessions[token].environment == e && next.sessions[token].kind == Endpoint
    && next.sessions[token].state == Pending && next.sessions[token].expires == expires
    && (var c := next.codes[token];
        && c.policy.None? && c.environment == Some(e) && c.sourceType == Endpoint && c.mode == mode
        && c.expires == expires && c.uses == c.maxUses == 1 && !c.revoked)
    && (forall k :: k != token ==> SessionsLeft(t.sessions, e, Cancelled, next.sessions, k))
    && CodesRevoked(t.codes, next.codes - {token}, set c | c in t.codes && t.codes[c].environment == Some(e))
  }

  lemma ReissuedIs(t: Tables, e: string, token: string, mode: Mode, expires: int)
    requires token !in t.codes && token !in t.sessions
    ensures TokenIssued(t, e, token, mode, expires, Reissued(t, e, token, mode, expires))
  {
  }

  predicate Waits(t: Tables, e: string) {
    e in t.environments && t.environments[e].kind == Endpoint && t.environments[e].connection == SetupPending
  }

  ghost predicate IssueLeft(t: Tables, e: string, token: string, expires: int, issued: bool, next: Tables) {
    && (issued <==> Waits(t, e))
    && if issued then TokenIssued(t, e, token, t.environments[e].mode, expires, next) else next == t
  }

  /** Only a connected endpoint in quick-scan mode whose last scan was useful is upgraded. */
  ghost predicate UpgradeLeft(t: Tables, e: string, token: string, expires: int, issued: bool, next: Tables) {
    && (issued <==>
          && e in t.environments && t.environments[e].kind == Endpoint && t.environments[e].connection == Connected
          && t.environments[e].mode == QuickScan && t.environments[e].source.Some?
          && t.environments[e].lastResult.Some? && t.environments[e].lastResult.value != Failed)
    && if issued then TokenIssued(t, e, token, Continuous, expires, next) else next == t
  }

  lemma IssuesAre(t: Tables, e: string, token: string, expires: int)
    requires token !in t.codes && token !in t.sessions
    ensures IssueLeft(t, e, token, expires, AwaitsSetup(t, e), Issued(t, e, token, expires))
    ensures UpgradeLeft(t, e, token, expires, Upgradable(t, e), Upgraded(t, e, token, expires))
  {
    hide Reissued, TokenIssued;
    if e in t.environments {
      ReissuedIs(t, e, token, t.environments[e].mode, expires);
      ReissuedIs(t, e, token, Continuous, expires);
    }
  }

  /** A new handoff of a waiting setup takes the place of the old ones. */
  ghost predicate HandoffLeft(t: Tables, e: string, id: string, expires: int, created: bool, next: Tables) {
    && (created <==> Waits(t, e))
    && (!created ==> next == t)
    && (created ==>
          && next == t.(handoffs := next.handoffs) && next.handoffs.Keys == t.handoffs.Keys + {id}
          && next.handoffs[id].environment == e && next.handoffs[id].expires == expires && !next.handoffs[id].revoked
          && forall h :: h != id ==> HandoffsLeft(t.handoffs, e, next.handoffs, h))
  }

  ghost predicate HandoffEnded(t: Tables, e: string, id: string, found: bool, next: Tables) {
    && (found <==> id in t.handoffs && t.handoffs[id].environment == e && !t.handoffs[id].revoked)
    && next == t.(handoffs := next.handoffs) && next.handoffs.Keys == t.handoffs.Keys
    && forall h :: h in t.handoffs ==>
                     && next.handoffs[h].environment == t.handoffs[h].environment && next.handoffs[h].expires == t.handoffs[h].expires
                     && (next.handoffs[h].revoked <==> t.handoffs[h].revoked || (found && h == id))
  }

  /** A handoff that is neither withdrawn nor expired issues a code for its waiting setup. */
  ghost predicate ResolutionLeft(t: Tables, id: string, token: string, now: int, expires: int, resolved: bool, next: Tables) {
    && (resolved <==> id in t.handoffs && !t.handoffs[id].revoked && now < t.handoffs[id].expires && Waits(t, t.handoffs[id].environment))
    && if resolved then
         var e := t.handoffs[id].environment;
         TokenIssued(t, e, token, t.environments[e].mode, expires, next)
       else next == t
  }

  lemma HandoffIs(t: Tables, e: string, id: string, expires: int)
    requires id !in t.handoffs
    ensures HandoffLeft(t, e, id, expires, AwaitsSetup(t, e), HandedOff(t, e, id, expires))
  {
  }

  lemma HandoffEndedIs(t: Tables, e: string, id: string)
    ensures HandoffEnded(t, e, id, id in t.handoffs && t.handoffs[id].environment == e && !t.handoffs[id].revoked, HandoffWithdrawn(t, e, id))
  {
  }

  lemma ResolutionIs(t: Tables, id: string, token: string, now: int, expires: int)
    requires token !in t.codes && token !in t.sessions
    ensures ResolutionLeft(t, id, token, now, expires, Opens(t, id, now), Resolved(t, id, token, now, expires))
  {
    hide Reissued, TokenIssued;
    if Opens(t, id, now) {
      var e := t.handoffs[id].environment;
      ReissuedIs(t, e, token, t.environments[e].mode, expires);
    }
  }

  /** Exactly the sources in `gone` are revoked, and exactly the tokens of those in `mute`
      are deleted. */
  ghost predicate SourcesEnded(t: Tables, gone: set<string>, mute: set<string>, next: Tables) {
    && next.sources.Keys == t.sources.Keys
    && (forall s :: s in t.sources ==>
          next.sources[s] == t.sources[s].(revoked := next.sources[s].revoked) && (next.sources[s].revoked <==> t.sources[s].revoked || s in gone))
    && (forall k :: k in next.tokens <==> k in t.tokens && t.tokens[k] !in mute)
    && (forall k :: k in next.tokens ==> next.tokens[k] == t.tokens[k])
  }

  ghost predicate SourceEnded(t: Tables, s: string, found: bool, next: Tables) {
    && (found <==> s in t.sources && !t.sources[s].revoked)
    && next == t.(sources := next.sources, tokens := next.tokens)
    && SourcesEnded(t, if found then {s} else {}, if found then {s} else {}, next)
  }

  /** A device that is an endpoint and not revoked is revoked with all its sources; the
      tokens of those that were live are deleted. */
  ghost predicate DeviceEnded(t: Tables, f: string, found: bool, next: Tables) {
    && (found <==> f in t.targets && t.targets[f].targetType == Endpoint && !t.targets[f].revoked)
    && next == t.(targets := next.targets, sources := next.sources, tokens := next.tokens)
    && next.targets.Keys == t.targets.Keys
    && (forall g :: g in t.targets ==>
          next.targets[g] == t.targets[g].(revoked := next.targets[g].revoked) && (next.targets[g].revoked <==> t.targets[g].revoked || (found && g == f)))
    && SourcesEnded(t, if found then (set s | s in t.sources && t.sources[s].target == t.targets[f].id) else {},
                    if found then (set s | s in t.sources && t.sources[s].target == t.targets[f].id && !t.sources[s].revoked) else {}, next)
  }

  lemma SourceEndedIs(t: Tables, s: string)
    ensures SourceEnded(t, s, s in t.sources && !t.sources[s].revoked, SourceWithdrawn(t, s))
  {
  }

  lemma DeviceEndedIs(t: Tables, f: string)
    ensures DeviceEnded(t, f, f in t.targets && t.targets[f].targetType == Endpoint && !t.targets[f].revoked, DeviceWithdrawn(t, f))
  {
  }

  /** An environment that is not disconnected yet is, and its pending sessions, its codes,
      its handoffs, its source and the source's tokens end with it. */
  ghost predicate EnvironmentEnded(t: Tables, e: string, found: bool, next: Tables) {
    && (found <==> e in t.environments && t.environments[e].connection != Disconnected)
    && (!found ==> next == t)
    && (found ==>
          && next == t.(environments := next.environments, sessions := next.sessions, codes := next.codes, handoffs := next.handoffs,
                        sources := next.sources, tokens := next.tokens)
          && e in next.environments && next.environments == t.environments[e := next.environments[e]]
          && next.environments[e].connection == Disconnected
          && next.environments[e] == t.environments[e].(connection := next.environments[e].connection)
          && next.sessions.Keys == t.sessions.Keys && next.codes.Keys == t.codes.Keys && next.handoffs.Keys == t.handoffs.Keys
          && (forall k :: SessionsLeft(t.sessions, e, Cancelled, next.sessions, k))
          && CodesRevoked(t.codes, next.codes, set c | c in t.codes && t.codes[c].environment == Some(e))
          && (forall h :: HandoffsLeft(t.handoffs, e, next.handoffs, h))
          && (var source := t.environments[e].source;
              SourcesEnded(t, if source.Some? then {source.value} else {}, if source.Some? then {source.value} else {}, next)))
  }

  lemma EnvironmentEndedIs(t: Tables, e: string)
    ensures EnvironmentEnded(t, e, e in t.environments && t.environments[e].connection != Disconnected, Parted(t, e))
  {
    hide SourcesEnded;
    if e in t.environments && t.environments[e].connection != Disconnected {
      EnvironmentSources(t, e);
    }
  }

  lemma EnvironmentSources(t: Tables, e: string)
    requires e in t.environments && t.environments[e].connection != Disconnected
    ensures var source := t.environments[e].source;
      SourcesEnded(t, if source.Some? then {source.value} else {}, if source.Some? then {source.value} else {}, Parted(t, e))
  {
    hide Settled, Closed, Withdrawn;
  }

  // ----- The requests that insert rows -----

  /** A code for `uses` exchanges, without a policy. */
  predicate CodeMade(c: Code, environment: Option<string>, expires: int, uses: nat, sourceType: SourceType, mode: Mode) {
    && c.policy.None? && c.environment == environment && c.sourceType == sourceType && c.mode == mode
    && c.expires == expires && c.uses == c.maxUses == uses && !c.revoked
  }

  /** An invitation has one to 10000 uses. */
  lemma InvitationIs(t: Tables, code: string, expires: int, uses: nat, sourceType: SourceType)
    ensures var next := Invited(t, code, expires, uses, sourceType);
      if 1 <= uses <= 10000 then
        && next == t.(codes := next.codes) && code in next.codes && next.codes == t.codes[code := next.codes[code]]
        && CodeMade(next.codes[code], None, expires, uses, sourceType, Continuous)
      else next == t
  {
  }

  lemma DraftIs(t: Tables, policy: string, sourceType: SourceType)
    ensures var next := Drafted(t, policy, sourceType);
      && next == t.(policies := next.policies) && policy in next.policies && next.policies == t.policies[policy := next.policies[policy]]
      && next.policies[policy].sourceType == sourceType && !next.policies[policy].revoked
  {
  }

  predicate ResultKept(was: Environments, e: string, result: ScanResult, next: Environments, id: string) {
    && (id in next <==> id in was)
    && (id in was ==>
          && next[id] == was[id].(lastResult := next[id].lastResult)
          && next[id].lastResult == if id == e then Some(result) else was[id].lastResult)
  }

  lemma ReportIs(t: Tables, e: string, result: ScanResult, id: string)
    ensures ResultKept(t.environments, e, result, Reported(t, e, result).environments, id)
  {
    var next := Reported(t, e, result).environments;
    if e in t.environments {
      assert next == t.environments[e := t.environments[e].(lastResult := Some(result))];
    } else {
      assert next == t.environments;
    }
  }

  predicate SequenceKept(was: Sources, s: string, sequence: nat, next: Sources, v: string) {
    && (v in next <==> v in was)
    && (v in was ==>
          && next[v] == was[v].(lastSequence := next[v].lastSequence)
          && next[v].lastSequence == if v == s && !was[v].revoked && sequence > was[v].lastSequence then sequence else was[v].lastSequence)
  }

  /** A live source's sequence only rises. */
  lemma SequenceIs(t: Tables, s: string, sequence: nat, v: string)
    ensures SequenceKept(t.sources, s, sequence, Sequenced(t, s, sequence).sources, v)
  {
    var next := Sequenced(t, s, sequence).sources;
    if s in t.sources && !t.sources[s].revoked && sequence > t.sources[s].lastSequence {
      assert next == t.sources[s := t.sources[s].(lastSequence := sequence)];
    } else {
      assert next == t.sources;
    }
  }

  ghost predicate SetupStarted(t: Tables, e: string, kind: SourceType, mode: Mode, token: string, expires: int, next: Tables) {
    && next == t.(environments := next.environments, sessions := next.sessions, codes := next.codes)
    && e in next.environments && next.environments == t.environments[e := next.environments[e]]
    && token in next.sessions && next.sessions == t.sessions[token := next.sessions[token]]
    && token in next.codes && next.codes == t.codes[token := next.codes[token]]
    && next.environments[e].kind == kind && next.environments[e].connection == SetupPending && next.environments[e].mode == mode
    && next.environments[e].source.None? && next.environments[e].target.None? && next.environments[e].lastResult.None?
    && next.sessions[token].environment == e && next.sessions[token].kind == kind
    && next.sessions[token].state == Pending && next.sessions[token].expires == expires
    && CodeMade(next.codes[token], Some(e), expires, 1, kind, mode)
  }

  /** A setup is for an endpoint or a cluster, and only an endpoint chooses its mode. */
  lemma SetupIs(t: Tables, e: string, kind: SourceType, mode: Mode, token: string, expires: int)
    ensures var next := SetUp(t, e, kind, mode, token, expires);
      match kind
      case Repository => next == t
      case Kubernetes => SetupStarted(t, e, kind, Continuous, token, expires, next)
      case Endpoint => SetupStarted(t, e, kind, mode, token, expires, next)
  {
  }
}
