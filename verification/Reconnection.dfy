/** When an environment that lost its source to another one can come back. */
module Reconnection {
  import opened Options
  import opened Enrollment
  import opened EnrollmentRuns
  import opened Setups

  /** The token `k` opens a continuous setup of the disconnected environment `e`, whose
      last mode was the quick scan. */
  predicate Opening(t: Tables, e: string, k: string) {
    && k != "" && k in t.sessions && t.sessions[k].environment == e && t.sessions[k].state == Pending
    && k in t.codes && !t.codes[k].revoked && t.codes[k].uses > 0 && t.codes[k].mode == Continuous
    && t.codes[k].sourceType == t.sessions[k].kind
    && e in t.environments && t.environments[e].mode == QuickScan
  }

  ghost predicate Away(t: Tables, e: string) {
    e in t.environments && t.environments[e].connection == Enrollment.Disconnected
  }

  /** Until when the token can be used: the exchange compares the time with both. */
  function Deadline(t: Tables, k: string): int
    requires k in t.sessions && k in t.codes
  {
    if t.sessions[k].expires < t.codes[k].expires then t.sessions[k].expires else t.codes[k].expires
  }

  predicate OpenAt(t: Tables, e: string, k: string, now: int) {
    Opening(t, e, k) && now < Deadline(t, k)
  }

  // ----- No opening appears -----

  lemma PlainMode(t: Tables, step: Step, e: string)
    requires Fresh(t, step) && Away(t, e) && e in Plain(t, step).environments
    ensures Plain(t, step).environments[e].mode == t.environments[e].mode
  {
    hide Settled, Withdrawn, Unused, Closed, Without, Silenced;
  }

  lemma PlainOpening(t: Tables, step: Step, e: string, k: string)
    requires Fresh(t, step) && Away(t, e) && Opening(Plain(t, step), e, k)
    ensures Opening(t, e, k) && Deadline(Plain(t, step), k) == Deadline(t, k)
  {
    hide Plain;
    PlainSessions(t, step, e, k);
    PlainMode(t, step, e);
    if k in t.codes {
      PlainCode(t, step, k);
    } else {
      PlainUnknown(t, step, k);
    }
  }

  lemma PlainUnknown(t: Tables, step: Step, k: string)
    requires Fresh(t, step) && k !in t.codes && k in Plain(t, step).codes
    ensures k !in t.sessions
  {
    hide Settled, Withdrawn, Without, Silenced;
  }

  lemma ExchangeMode(t: Tables, r: Request, e: string)
    requires Verdict(t, r).None? && Away(t, e) && Away(Accepted(t, r), e)
    ensures Accepted(t, r).environments[e].mode == t.environments[e].mode
  {
    hide Verdict, Used, Settled, Withdrawn, SourcesAfter, TargetAfter, Completes, Without;
    Admitted(t, r);
  }

  lemma ExchangeOpening(t: Tables, r: Request, e: string, k: string)
    requires Verdict(t, r).None? && Away(t, e) && Away(Accepted(t, r), e) && Opening(Accepted(t, r), e, k)
    ensures Opening(t, e, k) && Deadline(Accepted(t, r), k) == Deadline(t, k)
  {
    hide Verdict, Accepted, Setup, SetupActive;
    ExchangeSetup(t, r);
    ExchangeMode(t, r, e);
  }

  lemma IdleOpening(t: Tables, next: Tables, e: string, k: string)
    requires Idle(t, next) && Opening(next, e, k)
    ensures Opening(t, e, k) && Deadline(next, k) == Deadline(t, k)
  {
  }

  /** A token that opens a disconnected environment has done so before, until the same
      time. */
  lemma StepOpening(t: Tables, step: Step, e: string, k: string, now: int)
    requires Away(t, e) && Away(Apply(t, step), e) && OpenAt(Apply(t, step), e, k, now)
    ensures OpenAt(t, e, k, now)
  {
    hide *;
    StepCases(t, step);
    OpenAtIs(t, e, k, now);
    OpenAtIs(Apply(t, step), e, k, now);
    if Accepts(t, step) {
      ExchangeOpening(t, step.request, e, k);
    } else if Fresh(t, step) && Apply(t, step) == Plain(t, step) {
      PlainOpening(t, step, e, k);
    } else {
      IdleOpening(t, Apply(t, step), e, k);
    }
  }

  lemma OpenAtIs(t: Tables, e: string, k: string, now: int)
    ensures Opening(t, e, k) ==> k in t.sessions && k in t.codes
    ensures OpenAt(t, e, k, now) <==> Opening(t, e, k) && now < Deadline(t, k)
  {
  }

  // ----- Without an opening there is no way back -----

  lemma SetupOpens(t: Tables, r: Request, e: string)
    requires Prepared(t) && Away(t, e) && Verdict(t, r).None? && Setup(t, r) && t.sessions[r.code].environment == e
    ensures OpenAt(t, e, r.code, r.now)
  {
    hide Accepted, TargetAfter, ActiveSource, Clashes;
    assert SessionSound(t, r.code) && CodeSound(t, r.code);
  }

  lemma BackByOpening(t: Tables, step: Step, e: string)
    requires Prepared(t) && Away(t, e)
    ensures e in Apply(t, step).environments
    ensures !Away(Apply(t, step), e) ==> step.Exchange? && OpenAt(t, e, step.request.code, step.request.now)
  {
    hide Apply, Prepared, Verdict, Setup, Opening, OpenAt;
    ReconnectIff(t, step, e);
    if !Away(Apply(t, step), e) {
      SetupOpens(t, step.request, e);
    }
  }

  /** The time of a request, as far as its outcome depends on one. */
  function Moment(step: Step): Option<int> {
    if step.Rotate? || step.Resolve? then Some(step.now)
    else if step.Exchange? then Some(step.request.now)
    else None
  }

  predicate NotBefore(step: Step, clock: int) {
    Moment(step).Some? ==> clock <= Moment(step).value
  }

  /** No request before `clock`, and none before an earlier one. */
  ghost predicate Clocked(steps: seq<Step>, clock: int) {
    && (forall i :: 0 <= i < |steps| ==> NotBefore(steps[i], clock))
    && (forall i, j :: 0 <= i < j < |steps| && Moment(steps[i]).Some? ==> NotBefore(steps[j], Moment(steps[i]).value))
  }

  /** No token opens the environment from `clock` on. */
  ghost predicate Shut(t: Tables, e: string, clock: int) {
    forall k :: !OpenAt(t, e, k, clock)
  }

  /** Then it stays so, as long as the time does not run back behind `clock`. */
  lemma {:induction false} StaysAway(steps: seq<Step>, i: nat, k: nat, e: string, clock: int)
    requires i <= k <= |steps| && Away(Run(steps[..i]), e) && Shut(Run(steps[..i]), e, clock)
    requires forall j :: i <= j < k ==> NotBefore(steps[j], clock)
    ensures Away(Run(steps[..k]), e) && Shut(Run(steps[..k]), e, clock)
  {
    hide Apply, Away, Shut, NotBefore;
    if i == k {
    } else {
      StaysAway(steps, i, k - 1, e, clock);
      assert steps[..k][..k - 1] == steps[..k - 1];
      PreparedAlways(steps[..k - 1]);
      StillAway(Run(steps[..k - 1]), steps[k - 1], e, clock);
    }
  }

  lemma StillAway(t: Tables, step: Step, e: string, clock: int)
    requires Prepared(t) && Away(t, e) && Shut(t, e, clock) && NotBefore(step, clock)
    ensures Away(Apply(t, step), e) && Shut(Apply(t, step), e, clock)
  {
    hide Apply, Prepared, Opening, OpenAt;
    BackByOpening(t, step, e);
    if !Away(Apply(t, step), e) {
      OpenBefore(t, e, step.request.code, step.request.now, clock);
    }
    forall k
      ensures !OpenAt(Apply(t, step), e, k, clock)
    {
      if OpenAt(Apply(t, step), e, k, clock) {
        StepOpening(t, step, e, k, clock);
      }
    }
  }

  lemma OpenBefore(t: Tables, e: string, k: string, now: int, before: int)
    requires OpenAt(t, e, k, now) && before <= now
    ensures OpenAt(t, e, k, before)
  {
  }

  // ----- With one there is -----

  /** A name longer than all the others. */
  lemma LongName(names: set<string>) returns (name: string)
    ensures name != "" && forall other :: other in names ==> |other| < |name|
    decreases |names|
  {
    if names == {} {
      name := "n";
    } else {
      var one :| one in names;
      var rest := LongName(names - {one});
      name := rest + one;
      forall other | other in names
        ensures |other| < |name|
      {
        if other != one {
          assert other in names - {one};
        }
      }
    }
  }

  function NameOf(id: TargetId): string {
    match id
    case Installation(fingerprint) => fingerprint
    case Cluster(identity) => identity
    case Repo(identity) => identity
  }

  function Named(t: Tables): set<string> {
    t.targets.Keys + t.sources.Keys + t.enrollments.Keys + t.tokens.Keys + (set f | f in t.targets :: NameOf(t.targets[f].id))
  }

  /** A new installation, or a new cluster, presents the token in time. */
  function Newcomer(k: string, name: string, now: int): Request {
    Request(k, Continuous, None, "host", name, true, true, true, name, now, true, name, name, name)
  }

  lemma NewcomerAccepted(t: Tables, e: string, k: string, name: string, now: int)
    requires Prepared(t) && OpenAt(t, e, k, now) && name != "" && name !in Named(t)
    ensures var r := Newcomer(k, name, now); Accepts(t, Exchange(r)) && Setup(t, r) && t.sessions[r.code].environment == e
  {
    var r, code := Newcomer(k, name, now), t.codes[k];
    assert SessionSound(t, k) && CodeSound(t, k);
    assert code.environment == Some(e) && code.policy.None?;
    assert CredentialFault(t.policies, code, now).None? && RequestFault(t.environments, code, r).None?;
    assert name !in t.targets;
    NoClash(t, code, r);
    NotVetoed(t, r);
  }

  lemma NoClash(t: Tables, code: Code, r: Request)
    requires r.fingerprint == r.identity && r.fingerprint !in Named(t)
    ensures !Clashes(t.targets, code, r)
  {
    forall f | f in t.targets
      ensures t.targets[f].id != NewTargetId(code, r)
    {
      assert NameOf(t.targets[f].id) in Named(t);
    }
  }

  lemma NotVetoed(t: Tables, r: Request)
    requires r.code != "" && r.code in t.codes && r.stored && t.codes[r.code].mode == Continuous
    requires CredentialFault(t.policies, t.codes[r.code], r.now).None? && RequestFault(t.environments, t.codes[r.code], r).None?
    requires r.fingerprint !in t.targets && !Clashes(t.targets, t.codes[r.code], r)
    ensures Verdict(t, r).None?
  {
    hide CredentialFault, RequestFault, Clashes, ActiveSource, TargetAfter;
  }

  ghost predicate Returns(steps: seq<Step>, more: seq<Step>, e: string) {
    !Away(Run(steps + more), e)
  }

  /** From `clock` on a disconnected environment can come back exactly when a token still
      opens it then for continuous monitoring: one exchange at that time is enough, and
      otherwise no sequence of requests from then on does it. */
  lemma ReturnIff(steps: seq<Step>, e: string, clock: int)
    requires Away(Run(steps), e)
    ensures (exists more :: Clocked(more, clock) && Returns(steps, more, e)) <==> (exists k :: OpenAt(Run(steps), e, k, clock))
    ensures forall k :: OpenAt(Run(steps), e, k, clock) ==> exists r :: Restores(steps, r, e, k, clock)
  {
    hide Run, Apply, Opening, OpenAt, Away, Returns, Restores, Clocked;
    var t := Run(steps);
    PreparedAlways(steps);
    forall k | OpenAt(t, e, k, clock)
      ensures exists r :: Restores(steps, r, e, k, clock)
    {
      ReturnsInTime(steps, e, k, clock);
    }
    if k :| OpenAt(t, e, k, clock) {
      var r :| Restores(steps, r, e, k, clock);
      RestoresReturns(steps, r, e, k, clock);
    } else {
      forall more | Clocked(more, clock)
        ensures !Returns(steps, more, e)
      {
        NeverReturns(steps, more, e, clock);
      }
    }
  }

  ghost predicate Restores(steps: seq<Step>, r: Request, e: string, k: string, now: int) {
    r.code == k && r.now == now && Returns(steps, [Exchange(r)], e)
  }

  lemma RestoresReturns(steps: seq<Step>, r: Request, e: string, k: string, now: int)
    requires Restores(steps, r, e, k, now)
    ensures Clocked([Exchange(r)], now) && Returns(steps, [Exchange(r)], e)
  {
  }

  lemma ReturnsInTime(steps: seq<Step>, e: string, k: string, now: int)
    requires var t := Run(steps); Prepared(t) && Away(t, e) && OpenAt(t, e, k, now)
    ensures exists r :: Restores(steps, r, e, k, now)
  {
    hide Apply, Opening, OpenAt, Prepared, Setup, Named;
    var t := Run(steps);
    var name := LongName(Named(t));
    var r := Newcomer(k, name, now);
    NewcomerAccepted(t, e, k, name, now);
    ReconnectIff(t, Exchange(r), e);
    assert (steps + [Exchange(r)])[..|steps|] == steps;
    assert Restores(steps, r, e, k, now);
  }

  lemma NeverReturns(steps: seq<Step>, more: seq<Step>, e: string, clock: int)
    requires Away(Run(steps), e) && Shut(Run(steps), e, clock) && Clocked(more, clock)
    ensures !Returns(steps, more, e)
  {
    hide Run, Shut, Away, NotBefore;
    var all := steps + more;
    assert all[..|steps|] == steps && all[..|all|] == all;
    StaysAway(all, |steps|, |all|, e, clock);
  }

  // ----- It happens -----

  const DEVICE := Installation("f")

  function Scanned(connection: Connection, source: Option<string>, result: Option<ScanResult>): Environment {
    Environment(Endpoint, connection, QuickScan, if connection == SetupPending then None else Some(DEVICE), source, result)
  }

  function Ticket(e: string, mode: Mode): Code { Code(None, Some(e), 9, 1, 1, Endpoint, mode, false) }

  function Scan(token: string): Request {
    Request(token, QuickScan, None, "host", "", true, false, true, "f", 1, true, token, token, token)
  }

  /** A device is scanned once, its upgrade is prepared, and then it enrolls again for
      another environment. */
  const STORY := [Start("A", Endpoint, QuickScan, "a", 9), Exchange(Scan("a")), Report("A", Complete), Upgrade("A", "u", 9),
                  Start("B", Endpoint, QuickScan, "b", 9), Exchange(Scan("b"))]

  const STARTED := EMPTY.(environments := map["A" := Scanned(SetupPending, None, None)],
                          sessions := map["a" := Session("A", Endpoint, Pending, 9)], codes := map["a" := Ticket("A", QuickScan)])

  const SCANNED := EMPTY.(environments := map["A" := Scanned(Connected, Some("a"), None)],
                          sessions := map["a" := Session("A", Endpoint, Consumed, 9)],
                          targets := map["f" := Target(DEVICE, Endpoint, QuickScan, false)],
                          sources := map["a" := Source(DEVICE, Endpoint, QuickScan, 0, false)])

  const OFFERED := SCANNED.(environments := map["A" := Scanned(Connected, Some("a"), Some(Complete))],
                            sessions := SCANNED.sessions["u" := Session("A", Endpoint, Pending, 9)], codes := map["u" := Ticket("A", Continuous)])

  const INVITED := OFFERED.(environments := OFFERED.environments["B" := Scanned(SetupPending, None, None)],
                            sessions := OFFERED.sessions["b" := Session("B", Endpoint, Pending, 9)],
                            codes := OFFERED.codes["b" := Ticket("B", QuickScan)])

  lemma ScanStarts()
    ensures Apply(EMPTY, STORY[0]) == STARTED
  {
  }

  lemma ScanEnrolls()
    ensures Apply(STARTED, STORY[1]) == SCANNED
  {
    var r := Scan("a");
    assert CredentialFault(STARTED.policies, STARTED.codes["a"], 1).None? && RequestFault(STARTED.environments, STARTED.codes["a"], r).None?;
    assert ActiveSource(STARTED.sources, DEVICE, Endpoint).None?;
    assert Verdict(STARTED, r).None?;
    assert Used(STARTED.codes, "a") == map[];
  }

  const REPORTED := SCANNED.(environments := map["A" := Scanned(Connected, Some("a"), Some(Complete))])

  lemma ResultReported()
    ensures Apply(SCANNED, STORY[2]) == REPORTED
  {
  }

  lemma UpgradeOffered()
    ensures Apply(REPORTED, STORY[3]) == OFFERED
  {
    var step := STORY[3];
    assert step == Upgrade("A", "u", 9) && Fresh(REPORTED, step) && Upgradable(REPORTED, "A");
    assert Settled(REPORTED.sessions, "A", Cancelled) == REPORTED.sessions;
    assert Closed(REPORTED.codes, "A") == map[];
    assert Reissued(REPORTED, "A", "u", Continuous, 9) == OFFERED;
  }

  lemma OtherStarts()
    ensures Apply(OFFERED, STORY[4]) == INVITED
  {
  }

  lemma MoveAccepted()
    ensures Verdict(INVITED, Scan("b")).None? && Accepts(INVITED, STORY[5]) && Setup(INVITED, Scan("b"))
    ensures ActiveSource(INVITED.sources, DEVICE, Endpoint) == Some("a")
  {
    var r := Scan("b");
    assert CredentialFault(INVITED.policies, INVITED.codes["b"], 1).None? && RequestFault(INVITED.environments, INVITED.codes["b"], r).None?;
    assert Live(INVITED.sources, "a", DEVICE, Endpoint);
    assert !Live(INVITED.sources, "b", DEVICE, Endpoint);
  }

  lemma DeviceMoves()
    requires Verdict(INVITED, Scan("b")).None? && Setup(INVITED, Scan("b")) && ActiveSource(INVITED.sources, DEVICE, Endpoint) == Some("a")
    ensures var t := Accepted(INVITED, Scan("b")); Away(t, "A") && t.environments["A"].mode == QuickScan
  {
    hide Verdict, ActiveSource, Used, Settled, Withdrawn, SourcesAfter, Without, CredentialFault, RequestFault;
  }

  lemma OpenUntilNine()
    ensures var t := Apply(INVITED, STORY[5]); Away(t, "A") && (forall k, now :: OpenAt(t, "A", k, now) ==> now < 9) && OpenAt(t, "A", "u", 8)
  {
    hide Apply, Fresh, Verdict, Accepted, Setup, ActiveSource, SetupActive, Withdrawn;
    MoveAccepted();
    DeviceMoves();
    ExchangeSetup(INVITED, Scan("b"));
    assert STORY[5] == Exchange(Scan("b"));
    assert Used(INVITED.codes, "b") == map["u" := Ticket("A", Continuous)];
  }

  /** So the connection of an environment that another one has replaced is not final: the
      upgrade that was prepared before brings it back, and does so until it expires. */
  lemma ReturnHappens(clock: int)
    ensures Away(Run(STORY), "A")
    ensures (exists more :: Clocked(more, clock) && Returns(STORY, more, "A")) <==> clock < 9
  {
    hide Apply, Away, Opening, OpenAt, Returns, Clocked, STARTED, SCANNED, REPORTED, OFFERED, INVITED, STORY;
    ScanStarts();
    ScanEnrolls();
    ResultReported();
    UpgradeOffered();
    OtherStarts();
    OpenUntilNine();
    StoryRuns();
    if clock < 9 {
      OpenBefore(Run(STORY), "A", "u", 8, clock);
    }
    ReturnIff(STORY, "A", clock);
  }

  lemma StoryRuns()
    ensures Run(STORY) == Apply(Apply(Apply(Apply(Apply(Apply(EMPTY, STORY[0]), STORY[1]), STORY[2]), STORY[3]), STORY[4]), STORY[5])
  {
    hide Apply;
    assert STORY[..6] == STORY && STORY[..0] == [];
    RunStep(STORY, 1);
    RunStep(STORY, 2);
    RunStep(STORY, 3);
    RunStep(STORY, 4);
    RunStep(STORY, 5);
    RunStep(STORY, 6);
  }
}
