/** Enrollment of collectors: the tables and what each request does to them
    (internal/hub/server.go, deployment_policies.go, endpoint_setup.go, environments.go,
    device_fleet.go). Times are seconds; a code and a token stand for their hashes. */
module Enrollment {
  import opened Options

  datatype SourceType = Endpoint | Kubernetes | Repository

  datatype Mode = QuickScan | Continuous

  /** The stable id of a target: a hash of its kind and key, taken to be injective. */
  datatype TargetId = Installation(fingerprint: string) | Cluster(identity: string) | Repo(identity: string)

  datatype Policy = Policy(sourceType: SourceType, revoked: bool)

  datatype Code = Code(policy: Option<string>, environment: Option<string>, expires: int, uses: nat, maxUses: nat,
                       sourceType: SourceType, mode: Mode, revoked: bool)

  datatype Target = Target(id: TargetId, targetType: SourceType, mode: Mode, revoked: bool)

  datatype Source = Source(target: TargetId, sourceType: SourceType, mode: Mode, lastSequence: nat, revoked: bool)

  datatype Connection = SetupPending | Connected | Disconnected

  datatype ScanResult = Complete | Partial | Failed

  datatype Environment = Environment(kind: SourceType, connection: Connection, mode: Mode, target: Option<TargetId>,
                                     source: Option<string>, lastResult: Option<ScanResult>)

  datatype SessionState = Pending | Consumed | Cancelled

  datatype Session = Session(environment: string, kind: SourceType, state: SessionState, expires: int)

  /** A row of deployment_policy_enrollments. */
  datatype Row = Row(policy: string, credential: string, target: TargetId, source: string)

  datatype Handoff = Handoff(environment: string, expires: int, revoked: bool)

  datatype Reason =
    | MissingCode | UnknownCode | CredentialRevoked | CredentialExpired | CredentialExhausted | PolicyRevoked
    | MissingProof | ModeMismatch | UnsupportedMode | SetupInactive | TypeMismatch | MissingHostname
    | MissingIdentity | InvalidRepository | InvalidProof | DeviceRevoked | DatabaseError | ContinuousActive

  datatype Event = Refused(policy: string, credential: string, reason: Reason) | Succeeded(policy: string, credential: string, source: string, again: bool)

  type Policies = map<string, Policy>
  type Codes = map<string, Code>
  type Sources = map<string, Source>
  type Environments = map<string, Environment>
  type Sessions = map<string, Session>
  type Handoffs = map<string, Handoff>

  /** One organization. `targets` is keyed by the identity fingerprint, `sessions` and
      `codes` by their token, `tokens` maps a refresh token to its source. */
  datatype Tables = Tables(
    policies: Policies, codes: Codes, targets: map<string, Target>, sources: Sources, environments: Environments,
    sessions: Sessions, tokens: map<string, string>, enrollments: map<string, Row>, handoffs: Handoffs, audit: seq<Event>)

  const EMPTY := Tables(map[], map[], map[], map[], map[], map[], map[], map[], map[], [])

  // ----- The exchange of a code for credentials -----

  /** What the collector sends, what its checks answer, and the random names that a
      successful exchange uses. `stored` tells whether the database takes the writes. */
  datatype Request = Request(
    code: string, mode: Mode, sourceType: Option<SourceType>, hostname: string, identity: string,
    hasProof: bool, validRepository: bool, validProof: bool, fingerprint: string, now: int, stored: bool,
    source: string, enrollment: string, refresh: string)

  predicate SetupActive(environments: Environments, code: Code) {
    code.environment.None?
    || (code.environment.value in environments
        && var e := environments[code.environment.value];
           e.connection == SetupPending || (e.mode == QuickScan && code.mode == Continuous))
  }

  function IdentityFault(code: Code, r: Request): Option<Reason> {
    match code.sourceType
    case Endpoint => if r.hostname == "" then Some(MissingHostname) else None
    case Kubernetes => if r.identity == "" then Some(MissingIdentity) else None
    case Repository => if !r.validRepository then Some(InvalidRepository) else None
  }

  /** The state of a credential as the policy page shows it. */
  datatype CredentialStatus = Active | Revoked | Expired | Exhausted

  function StatusOf(code: Code, now: int): CredentialStatus {
    if code.revoked then Revoked
    else if code.expires <= now then Expired
    else if code.uses == 0 then Exhausted
    else Active
  }

  function CredentialFault(policies: Policies, code: Code, now: int): Option<Reason> {
    if code.revoked then Some(CredentialRevoked)
    else if code.expires <= now then Some(CredentialExpired)
    else if code.uses == 0 then Some(CredentialExhausted)
    else if code.policy.Some? && code.policy.value in policies && policies[code.policy.value].revoked then Some(PolicyRevoked)
    else None
  }

  function RequestFault(environments: Environments, code: Code, r: Request): Option<Reason> {
    if !r.hasProof then Some(MissingProof)
    else if r.mode != code.mode then Some(ModeMismatch)
    else if code.sourceType != Endpoint && code.mode != Continuous then Some(UnsupportedMode)
    else if !SetupActive(environments, code) then Some(SetupInactive)
    else if r.sourceType.Some? && r.sourceType.value != code.sourceType then Some(TypeMismatch)
    else if IdentityFault(code, r).Some? then IdentityFault(code, r)
    else if !r.validProof then Some(InvalidProof)
    else None
  }

  function NewTargetId(code: Code, r: Request): TargetId {
    match code.sourceType
    case Endpoint => Installation(r.fingerprint)
    case Kubernetes => Cluster(r.identity)
    case Repository => Repo(r.identity)
  }

  /** The target after its upsert on the fingerprint. */
  function TargetAfter(targets: map<string, Target>, code: Code, r: Request): Target {
    if r.fingerprint in targets then targets[r.fingerprint].(mode := code.mode)
    else Target(NewTargetId(code, r), code.sourceType, code.mode, false)
  }

  /** The insertion of the target meets another row with its id. */
  predicate Clashes(targets: map<string, Target>, code: Code, r: Request) {
    r.fingerprint !in targets && exists f :: f in targets && targets[f].id == NewTargetId(code, r)
  }

  predicate Live(sources: Sources, s: string, target: TargetId, sourceType: SourceType) {
    s in sources && !sources[s].revoked && sources[s].target == target && sources[s].sourceType == sourceType
  }

  ghost function ActiveSource(sources: Sources, target: TargetId, sourceType: SourceType): Option<string> {
    if exists s :: Live(sources, s, target, sourceType) then
      var s :| Live(sources, s, target, sourceType);
      Some(s)
    else None
  }

  ghost function Verdict(t: Tables, r: Request): Option<Reason> {
    if r.code == "" then Some(MissingCode)
    else if r.code !in t.codes then Some(UnknownCode)
    else
      var code := t.codes[r.code];
      if CredentialFault(t.policies, code, r.now).Some? then CredentialFault(t.policies, code, r.now)
      else if RequestFault(t.environments, code, r).Some? then RequestFault(t.environments, code, r)
      else if r.fingerprint in t.targets && t.targets[r.fingerprint].revoked then Some(DeviceRevoked)
      else if Clashes(t.targets, code, r) then Some(DatabaseError)
      else
        var active := ActiveSource(t.sources, TargetAfter(t.targets, code, r).id, code.sourceType);
        if active.Some? && t.sources[active.value].mode == Continuous && code.mode == QuickScan then Some(ContinuousActive)
        else if !r.stored then Some(DatabaseError)
        else None
  }

  function SourcesAfter(sources: Sources, active: Option<string>, target: TargetId, code: Code, r: Request): Sources {
    if active.Some? && active.value in sources then
      sources[active.value := sources[active.value].(mode := code.mode)]
    else
      sources[r.source := Source(target, code.sourceType, code.mode, 0, false)]
  }

  function Without(tokens: map<string, string>, source: string): map<string, string> {
    map k | k in tokens && tokens[k] != source :: tokens[k]
  }

  predicate Completes(sessions: Sessions, code: Code, r: Request) {
    && r.code in sessions && sessions[r.code].kind == code.sourceType
    && sessions[r.code].state == Pending && sessions[r.code].expires > r.now
  }

  /** The source moves to the environment `e`; another one that had it is disconnected. */
  function Bound(environments: Environments, e: string, source: string, target: TargetId, mode: Mode): Environments {
    map id | id in environments ::
      if id == e then environments[id].(connection := Connected, target := Some(target), source := Some(source), mode := mode)
      else if environments[id].source == Some(source) then environments[id].(connection := Disconnected, source := None)
      else environments[id]
  }

  function Settled(sessions: Sessions, e: string, state: SessionState): Sessions {
    map k | k in sessions ::
      if sessions[k].environment == e && sessions[k].state == Pending then sessions[k].(state := state) else sessions[k]
  }

  function Withdrawn(handoffs: Handoffs, e: string): Handoffs {
    map k | k in handoffs :: if handoffs[k].environment == e then handoffs[k].(revoked := true) else handoffs[k]
  }

  function Used(codes: Codes, code: string): Codes
    requires code in codes && codes[code].uses > 0
  {
    if codes[code].policy.Some? || codes[code].uses > 1 then codes[code := codes[code].(uses := codes[code].uses - 1)]
    else codes - {code}
  }

  /** The tables after the writes that follow the upsert of the target. */
  function Written(t: Tables, r: Request, code: Code, target: TargetId, active: Option<string>, source: string): Tables
    requires r.code in t.codes && t.codes[r.code].uses > 0
  {
    var setup := Completes(t.sessions, code, r);
    var tokens := if active.Some? then Without(t.tokens, source) else t.tokens;
    Tables(
      t.policies, Used(t.codes, r.code), t.targets, SourcesAfter(t.sources, active, target, code, r),
      if setup then Bound(t.environments, t.sessions[r.code].environment, source, target, code.mode) else t.environments,
      if setup then Settled(t.sessions, t.sessions[r.code].environment, Consumed) else t.sessions,
      if code.mode == Continuous then tokens[r.refresh := source] else tokens,
      if code.policy.Some? then t.enrollments[r.enrollment := Row(code.policy.value, r.code, target, source)] else t.enrollments,
      if setup then Withdrawn(t.handoffs, t.sessions[r.code].environment) else t.handoffs,
      if code.policy.Some? then t.audit + [Succeeded(code.policy.value, r.code, source, active.Some?)] else t.audit)
  }

  /** The tables after a successful exchange. */
  ghost function Accepted(t: Tables, r: Request): Tables
    requires Verdict(t, r).None?
  {
    var code := t.codes[r.code];
    var target := TargetAfter(t.targets, code, r);
    var active := ActiveSource(t.sources, target.id, code.sourceType);
    Written(t.(targets := t.targets[r.fingerprint := target]), r, code, target.id, active, if active.Some? then active.value else r.source)
  }

  predicate Audited(t: Tables, r: Request, reason: Reason) {
    reason != DatabaseError && r.code != "" && r.code in t.codes && t.codes[r.code].policy.Some?
  }

  /** The tables after a refusal: the use of a policy's credential leaves an audit event. */
  function Denied(t: Tables, r: Request, reason: Reason): Tables {
    if Audited(t, r, reason) then t.(audit := t.audit + [Refused(t.codes[r.code].policy.value, r.code, reason)]) else t
  }

  // ----- The other requests -----

  function Unused(codes: Codes, policy: string): Codes {
    map c | c in codes :: if codes[c].policy == Some(policy) then codes[c].(revoked := true) else codes[c]
  }

  /** createEnrollmentCode: a code without policy. */
  function Invited(t: Tables, code: string, expires: int, uses: nat, sourceType: SourceType): Tables {
    if uses == 0 || uses > 10000 then t
    else t.(codes := t.codes[code := Code(None, None, expires, uses, uses, sourceType, Continuous, false)])
  }

  function Drafted(t: Tables, policy: string, sourceType: SourceType): Tables {
    t.(policies := t.policies[policy := Policy(sourceType, false)])
  }

  /** rotateDeploymentPolicyCredential, with the lifetime and number of uses filled in. */
  function Rotated(t: Tables, policy: string, code: string, now: int, lifetime: int, uses: nat): Tables {
    if policy !in t.policies || t.policies[policy].revoked || lifetime < 60 || lifetime > 2592000 || uses < 1 || uses > 100000 then t
    else t.(codes := Unused(t.codes, policy)[code := Code(Some(policy), None, now + lifetime, uses, uses, t.policies[policy].sourceType, Continuous, false)])
  }

  function CredentialWithdrawn(t: Tables, policy: string, code: string): Tables {
    if code !in t.codes || t.codes[code].policy != Some(policy) || t.codes[code].revoked then t
    else t.(codes := t.codes[code := t.codes[code].(revoked := true)])
  }

  function PolicyWithdrawn(t: Tables, policy: string): Tables {
    if policy !in t.policies || t.policies[policy].revoked then t
    else t.(policies := t.policies[policy := t.policies[policy].(revoked := true)], codes := Unused(t.codes, policy))
  }

  /** createEnvironmentSetupSession for an endpoint or a cluster; only an endpoint can ask
      for quick scans. */
  function SetUp(t: Tables, e: string, kind: SourceType, mode: Mode, token: string, expires: int): Tables {
    if kind == Repository then t
    else
      var chosen := if kind == Endpoint then mode else Continuous;
      t.(environments := t.environments[e := Environment(kind, SetupPending, chosen, None, None, None)],
         sessions := t.sessions[token := Session(e, kind, Pending, expires)],
         codes := t.codes[token := Code(None, Some(e), expires, 1, 1, kind, chosen, false)])
  }

  function Closed(codes: Codes, e: string): Codes {
    map c | c in codes :: if codes[c].environment == Some(e) then codes[c].(revoked := true) else codes[c]
  }

  /** A new setup token for an environment in place of the old ones. */
  function Reissued(t: Tables, e: string, token: string, mode: Mode, expires: int): Tables {
    t.(sessions := Settled(t.sessions, e, Cancelled)[token := Session(e, Endpoint, Pending, expires)],
       codes := Closed(t.codes, e)[token := Code(None, Some(e), expires, 1, 1, Endpoint, mode, false)])
  }

  predicate AwaitsSetup(t: Tables, e: string) {
    e in t.environments && t.environments[e].kind == Endpoint && t.environments[e].connection == SetupPending
  }

  /** issueEndpointCredential. */
  function Issued(t: Tables, e: string, token: string, expires: int): Tables {
    if AwaitsSetup(t, e) then Reissued(t, e, token, t.environments[e].mode, expires) else t
  }

  predicate Upgradable(t: Tables, e: string) {
    e in t.environments
    && var env := t.environments[e];
       && env.kind == Endpoint && env.connection == Connected && env.mode == QuickScan && env.source.Some?
       && (env.lastResult == Some(Complete) || env.lastResult == Some(Partial))
  }

  /** enableContinuousMonitoring. */
  function Upgraded(t: Tables, e: string, token: string, expires: int): Tables {
    if Upgradable(t, e) then Reissued(t, e, token, Continuous, expires) else t
  }

  function HandedOff(t: Tables, e: string, id: string, expires: int): Tables {
    if AwaitsSetup(t, e) then t.(handoffs := Withdrawn(t.handoffs, e)[id := Handoff(e, expires, false)]) else t
  }

  function HandoffWithdrawn(t: Tables, e: string, id: string): Tables {
    if id !in t.handoffs || t.handoffs[id].environment != e || t.handoffs[id].revoked then t
    else t.(handoffs := t.handoffs[id := t.handoffs[id].(revoked := true)])
  }

  predicate Opens(t: Tables, id: string, now: int) {
    id in t.handoffs && !t.handoffs[id].revoked && t.handoffs[id].expires > now && AwaitsSetup(t, t.handoffs[id].environment)
  }

  /** resolveEndpointHandoff. */
  function Resolved(t: Tables, id: string, token: string, now: int, expires: int): Tables {
    if Opens(t, id, now) then Issued(t, t.handoffs[id].environment, token, expires) else t
  }

  function Reported(t: Tables, e: string, result: ScanResult): Tables {
    if e !in t.environments then t
    else t.(environments := t.environments[e := t.environments[e].(lastResult := Some(result))])
  }

  /** The sequence of an accepted snapshot (internal/hub/worker.go). */
  function Sequenced(t: Tables, s: string, sequence: nat): Tables {
    if s !in t.sources || t.sources[s].revoked || sequence <= t.sources[s].lastSequence then t
    else t.(sources := t.sources[s := t.sources[s].(lastSequence := sequence)])
  }

  /** revokeSource. */
  function SourceWithdrawn(t: Tables, s: string): Tables {
    if s !in t.sources || t.sources[s].revoked then t
    else t.(sources := t.sources[s := t.sources[s].(revoked := true)], tokens := Without(t.tokens, s))
  }

  function Silenced(sources: Sources, target: TargetId): Sources {
    map s | s in sources :: if sources[s].target == target then sources[s].(revoked := true) else sources[s]
  }

  /** revokeFleetDevice deletes the tokens of the target's live sources. */
  function DeviceWithdrawn(t: Tables, f: string): Tables {
    if f !in t.targets || t.targets[f].targetType != Endpoint || t.targets[f].revoked then t
    else
      var target := t.targets[f].id;
      t.(targets := t.targets[f := t.targets[f].(revoked := true)],
         sources := Silenced(t.sources, target),
         tokens := map k | k in t.tokens && !(t.tokens[k] in t.sources && t.sources[t.tokens[k]].target == target && !t.sources[t.tokens[k]].revoked) :: t.tokens[k])
  }

  /** disconnectEnvironment for an endpoint or a cluster. */
  function Parted(t: Tables, e: string): Tables {
    if e !in t.environments || t.environments[e].connection == Disconnected then t
    else
      var source := t.environments[e].source;
      t.(environments := t.environments[e := t.environments[e].(connection := Disconnected)],
         sessions := Settled(t.sessions, e, Cancelled),
         codes := Closed(t.codes, e),
         handoffs := Withdrawn(t.handoffs, e),
         sources := if source.Some? && source.value in t.sources then t.sources[source.value := t.sources[source.value].(revoked := true)] else t.sources,
         tokens := if source.Some? then Without(t.tokens, source.value) else t.tokens)
  }
}
