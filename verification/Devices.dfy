/** What every sequence of requests keeps of targets, sources, environments and tokens. */
module Devices {
  import opened Options
  import opened Enrollment
  import opened EnrollmentRuns

  // ----- Sources and targets over one step -----

  /** A source stays with its target and its sequence; its revocation is final, and it
      never goes back from continuous monitoring. */
  predicate SourceKept(t: Tables, next: Tables, s: string) {
    s in t.sources ==>
      && s in next.sources
      && next.sources[s].target == t.sources[s].target && next.sources[s].sourceType == t.sources[s].sourceType
      && next.sources[s].lastSequence >= t.sources[s].lastSequence
      && (t.sources[s].revoked ==> next.sources[s].revoked)
      && (t.sources[s].mode == Continuous ==> next.sources[s].mode == Continuous)
  }

  /** Other requests change no more of a source than its revocation and sequence. */
  predicate Touched(was: Source, now: Source) {
    && now.target == was.target && now.sourceType == was.sourceType && now.mode == was.mode
    && (was.revoked ==> now.revoked) && was.lastSequence <= now.lastSequence
  }

  lemma PlainKeepsSources(t: Tables, step: Step)
    requires !Revokes(step)
    ensures Plain(t, step).sources == if step.Submit? then Sequenced(t, step.source, step.sequence).sources else t.sources
  {
    hide Settled, Withdrawn, Unused, Closed, Bound, Without, Silenced, Parted, DeviceWithdrawn, SourceWithdrawn, Sequenced;
  }

  predicate SourceTouched(t: Tables, next: Tables, s: string) {
    (s in next.sources <==> s in t.sources) && (s in t.sources ==> Touched(t.sources[s], next.sources[s]))
  }

  lemma SourceRevoked(t: Tables, e: string, s: string)
    ensures SourceTouched(t, SourceWithdrawn(t, e), s)
  {
    hide Without;
  }

  lemma DeviceRevoked(t: Tables, f: string, s: string)
    ensures SourceTouched(t, DeviceWithdrawn(t, f), s)
  {
  }

  lemma EnvironmentClosed(t: Tables, e: string, s: string)
    ensures SourceTouched(t, Parted(t, e), s)
  {
    hide Settled, Withdrawn, Closed, Without;
  }

  lemma OtherSource(t: Tables, step: Step, s: string)
    requires !Revokes(step)
    ensures SourceTouched(t, Plain(t, step), s)
  {
    hide Plain;
    PlainKeepsSources(t, step);
  }

  lemma PlainTouches(t: Tables, step: Step, s: string)
    ensures SourceTouched(t, Plain(t, step), s)
  {
    hide *;
    PlainRevokes(t, step);
    NotRevoking(step);
    if step.WithdrawSource? {
      SourceRevoked(t, step.source, s);
    } else if step.WithdrawDevice? {
      DeviceRevoked(t, step.fingerprint, s);
    } else if step.Disconnect? {
      EnvironmentClosed(t, step.environment, s);
    } else {
      OtherSource(t, step, s);
    }
  }

  lemma PlainSource(t: Tables, step: Step, s: string)
    ensures s in Plain(t, step).sources <==> s in t.sources
    ensures s in t.sources ==> Touched(t.sources[s], Plain(t, step).sources[s])
  {
    hide Plain, Touched;
    PlainTouches(t, step, s);
  }

  /** What an accepted exchange does to the sources. */
  lemma ExchangeSources(t: Tables, r: Request)
    requires Verdict(t, r).None?
    ensures var code := t.codes[r.code];
      var target := TargetAfter(t.targets, code, r).id;
      var active := ActiveSource(t.sources, target, code.sourceType);
      && (active.Some? ==> Live(t.sources, active.value, target, code.sourceType)
                           && !(t.sources[active.value].mode == Continuous && code.mode == QuickScan))
      && (active.None? ==> forall s :: !Live(t.sources, s, target, code.sourceType))
      && Accepted(t, r).sources == SourcesAfter(t.sources, active, target, code, r)
  {
    hide Used, Bound, Settled, Withdrawn, SourcesAfter, TargetAfter, Completes, Without;
  }

  lemma ExchangeSource(t: Tables, r: Request, s: string)
    requires Verdict(t, r).None? && r.source !in t.sources
    ensures SourceKept(t, Accepted(t, r), s)
  {
    hide Verdict, Accepted, TargetAfter;
    ExchangeSources(t, r);
  }

  lemma SameSources(t: Tables, next: Tables, s: string)
    requires Idle(t, next)
    ensures SourceKept(t, next, s)
  {
  }

  lemma StepSource(t: Tables, step: Step, s: string)
    ensures SourceKept(t, Apply(t, step), s)
  {
    hide *;
    StepCases(t, step);
    if Accepts(t, step) {
      AcceptsFresh(t, step);
      ExchangeSource(t, step.request, s);
    } else if Fresh(t, step) && Apply(t, step) == Plain(t, step) {
      PlainKeepsSource(t, step, s);
    } else {
      SameSources(t, Apply(t, step), s);
    }
  }

  lemma PlainKeepsSource(t: Tables, step: Step, s: string)
    ensures SourceKept(t, Plain(t, step), s)
  {
    hide Plain;
    PlainSource(t, step, s);
  }

  lemma AcceptsFresh(t: Tables, step: Step)
    requires Accepts(t, step)
    ensures step.Exchange? && step.request.source !in t.sources && step.request.refresh !in t.tokens
  {
  }

  // ----- At most one live source -----

  ghost predicate OneLive(t: Tables) {
    forall s, v :: !Doubled(t, s, v)
  }

  /** Two live sources of one type for one target. */
  predicate Doubled(t: Tables, s: string, v: string) {
    && s in t.sources && v in t.sources && s != v && !t.sources[s].revoked && !t.sources[v].revoked
    && t.sources[s].target == t.sources[v].target && t.sources[s].sourceType == t.sources[v].sourceType
  }

  lemma PlainOneLive(t: Tables, step: Step, s: string, v: string)
    requires Fresh(t, step) && OneLive(t)
    ensures !Doubled(Plain(t, step), s, v)
  {
    hide Plain;
    assert !Doubled(t, s, v);
    PlainSource(t, step, s);
    PlainSource(t, step, v);
  }

  lemma ExchangeOneLive(t: Tables, r: Request, s: string, v: string)
    requires Verdict(t, r).None? && r.source !in t.sources && OneLive(t)
    ensures !Doubled(Accepted(t, r), s, v)
  {
    hide Verdict, Accepted, TargetAfter;
    assert !Doubled(t, s, v);
    Admitted(t, r);
    ExchangeSources(t, r);
    var code := t.codes[r.code];
    var target := TargetAfter(t.targets, code, r).id;
    assert ActiveSource(t.sources, target, code.sourceType).None? ==> !Live(t.sources, s, target, code.sourceType) && !Live(t.sources, v, target, code.sourceType);
  }

  // ----- Environments -----

  /** Two environments with one source. */
  predicate Shared(t: Tables, a: string, b: string) {
    a in t.environments && b in t.environments && a != b && t.environments[a].source.Some? && t.environments[a].source == t.environments[b].source
  }

  lemma PlainEnvironment(t: Tables, step: Step, a: string)
    requires Fresh(t, step) && a in Plain(t, step).environments && Plain(t, step).environments[a].source.Some?
    ensures a in t.environments && Plain(t, step).environments[a].source == t.environments[a].source
  {
    hide Settled, Withdrawn, Without, Unused, Closed, Silenced;
  }

  lemma PlainUnshared(t: Tables, step: Step, a: string, b: string)
    requires Fresh(t, step) && !Shared(t, a, b)
    ensures !Shared(Plain(t, step), a, b)
  {
    hide Plain;
    if Shared(Plain(t, step), a, b) {
      PlainEnvironment(t, step, a);
      PlainEnvironment(t, step, b);
    }
  }

  lemma ExchangeUnshared(t: Tables, r: Request, a: string, b: string)
    requires Verdict(t, r).None? && !Shared(t, a, b)
    ensures !Shared(Accepted(t, r), a, b)
  {
    hide Verdict, Used, Settled, Withdrawn, SourcesAfter, TargetAfter, Completes, Without;
  }

  // ----- Refresh tokens -----

  /** A refresh token belongs to a live source under continuous monitoring. */
  predicate TokenSound(t: Tables, k: string) {
    k in t.tokens ==> t.tokens[k] in t.sources && !t.sources[t.tokens[k]].revoked && t.sources[t.tokens[k]].mode == Continuous
  }

  predicate TokenTwins(t: Tables, k: string, l: string) {
    k in t.tokens && l in t.tokens && k != l && t.tokens[k] == t.tokens[l]
  }

  predicate Revokes(step: Step) { step.WithdrawSource? || step.WithdrawDevice? || step.Disconnect? }

  lemma PlainRest(t: Tables, step: Step)
    requires !Revokes(step)
    ensures Plain(t, step).tokens == t.tokens && Plain(t, step).targets == t.targets
  {
    hide Settled, Withdrawn, Unused, Closed, Bound, Without, Silenced, Parted, DeviceWithdrawn, SourceWithdrawn;
  }

  lemma PlainRevokes(t: Tables, step: Step)
    ensures step.WithdrawSource? ==> Plain(t, step) == SourceWithdrawn(t, step.source)
    ensures step.WithdrawDevice? ==> Plain(t, step) == DeviceWithdrawn(t, step.fingerprint)
    ensures step.Disconnect? ==> Plain(t, step) == Parted(t, step.environment)
  {
    hide Invited, Drafted, Rotated, CredentialWithdrawn, PolicyWithdrawn, SetUp, Issued, Upgraded, HandedOff, HandoffWithdrawn, Resolved, Reported, Sequenced;
    hide SourceWithdrawn, DeviceWithdrawn, Parted;
  }

  /** No token is added, and one that stays keeps a live source. */
  predicate TokenKept(t: Tables, next: Tables, k: string) {
    k in next.tokens ==>
      && k in t.tokens && next.tokens[k] == t.tokens[k]
      && (t.tokens[k] in t.sources && !t.sources[t.tokens[k]].revoked ==>
            t.tokens[k] in next.sources && !next.sources[t.tokens[k]].revoked)
  }

  lemma SourceToken(t: Tables, s: string, k: string)
    ensures TokenKept(t, SourceWithdrawn(t, s), k)
  {
  }

  lemma DeviceToken(t: Tables, f: string, k: string)
    ensures TokenKept(t, DeviceWithdrawn(t, f), k)
  {
  }

  lemma EnvironmentToken(t: Tables, e: string, k: string)
    ensures TokenKept(t, Parted(t, e), k)
  {
    hide Settled, Withdrawn, Closed;
  }

  lemma OtherToken(t: Tables, step: Step, k: string)
    requires !Revokes(step)
    ensures TokenKept(t, Plain(t, step), k)
  {
    hide Plain;
    PlainRest(t, step);
    PlainKeepsSources(t, step);
  }

  lemma PlainToken(t: Tables, step: Step, k: string)
    ensures TokenKept(t, Plain(t, step), k)
  {
    hide *;
    PlainRevokes(t, step);
    if step.WithdrawSource? {
      SourceToken(t, step.source, k);
    } else if step.WithdrawDevice? {
      DeviceToken(t, step.fingerprint, k);
    } else if step.Disconnect? {
      EnvironmentToken(t, step.environment, k);
    } else {
      NotRevoking(step);
      OtherToken(t, step, k);
    }
  }

  lemma NotRevoking(step: Step)
    ensures Revokes(step) <==> step.WithdrawSource? || step.WithdrawDevice? || step.Disconnect?
  {
  }

  lemma PlainTokenSound(t: Tables, step: Step, k: string)
    requires TokenSound(t, k)
    ensures TokenSound(Plain(t, step), k)
  {
    hide Plain;
    PlainToken(t, step, k);
    if k in t.tokens {
      PlainSource(t, step, t.tokens[k]);
    }
  }

  lemma PlainTokenTwins(t: Tables, step: Step, k: string, l: string)
    requires !TokenTwins(t, k, l)
    ensures !TokenTwins(Plain(t, step), k, l)
  {
    hide Plain;
    PlainToken(t, step, k);
    PlainToken(t, step, l);
  }

  lemma ExchangeTokens(t: Tables, r: Request)
    requires Verdict(t, r).None?
    ensures var code := t.codes[r.code];
      var active := ActiveSource(t.sources, TargetAfter(t.targets, code, r).id, code.sourceType);
      var source := if active.Some? then active.value else r.source;
      var tokens := if active.Some? then Without(t.tokens, source) else t.tokens;
      Accepted(t, r).tokens == if code.mode == Continuous then tokens[r.refresh := source] else tokens
  {
    hide Used, Bound, Settled, Withdrawn, SourcesAfter, TargetAfter, Completes, Without;
  }

  lemma ExchangeTokenSound(t: Tables, r: Request, k: string)
    requires Verdict(t, r).None? && r.source !in t.sources && forall l :: TokenSound(t, l)
    ensures TokenSound(Accepted(t, r), k)
  {
    hide Verdict, Accepted, TargetAfter;
    assert TokenSound(t, k);
    Admitted(t, r);
    ExchangeSources(t, r);
    ExchangeTokens(t, r);
  }

  lemma ExchangeTokenTwins(t: Tables, r: Request, k: string, l: string)
    requires Verdict(t, r).None? && r.source !in t.sources && (forall m :: TokenSound(t, m)) && !TokenTwins(t, k, l)
    ensures !TokenTwins(Accepted(t, r), k, l)
  {
    hide Verdict, Accepted, TargetAfter;
    assert TokenSound(t, k) && TokenSound(t, l);
    Admitted(t, r);
    ExchangeTokens(t, r);
  }

  // ----- Devices -----

  /** A target stays, and its revocation is final. */
  predicate TargetKept(t: Tables, next: Tables, f: string) {
    f in t.targets ==>
      f in next.targets && next.targets[f].id == t.targets[f].id && (t.targets[f].revoked ==> next.targets[f].revoked)
  }

  /** Two targets with one id. */
  predicate Confused(t: Tables, f: string, g: string) {
    f in t.targets && g in t.targets && f != g && t.targets[f].id == t.targets[g].id
  }

  /** A live source of a revoked device. */
  predicate Haunted(t: Tables, f: string, s: string) {
    && f in t.targets && t.targets[f].revoked
    && s in t.sources && !t.sources[s].revoked && t.sources[s].target == t.targets[f].id
  }

  lemma PlainTarget(t: Tables, step: Step, f: string)
    ensures TargetKept(t, Plain(t, step), f)
    ensures f in Plain(t, step).targets ==> f in t.targets
    ensures f in t.targets && Plain(t, step).targets[f].revoked && !t.targets[f].revoked ==>
              Plain(t, step).sources == Silenced(t.sources, t.targets[f].id)
  {
    hide Plain, Settled, Withdrawn, Closed, Without, Silenced;
    if Revokes(step) {
      PlainRevokes(t, step);
    } else {
      PlainRest(t, step);
    }
  }

  lemma PlainConfused(t: Tables, step: Step, f: string, g: string)
    requires !Confused(t, f, g)
    ensures !Confused(Plain(t, step), f, g)
  {
    hide Plain;
    PlainTarget(t, step, f);
    PlainTarget(t, step, g);
  }

  lemma PlainHaunted(t: Tables, step: Step, f: string, s: string)
    requires !Haunted(t, f, s)
    ensures !Haunted(Plain(t, step), f, s)
  {
    hide Plain;
    if Haunted(Plain(t, step), f, s) {
      PlainTarget(t, step, f);
      PlainSource(t, step, s);
    }
  }

  lemma ExchangeTargets(t: Tables, r: Request)
    requires Verdict(t, r).None?
    ensures Accepted(t, r).targets == t.targets[r.fingerprint := TargetAfter(t.targets, t.codes[r.code], r)]
  {
    hide Verdict, Used, Bound, Settled, Withdrawn, SourcesAfter, TargetAfter, Completes, Without;
  }

  lemma ExchangeTarget(t: Tables, r: Request, f: string)
    requires Verdict(t, r).None?
    ensures TargetKept(t, Accepted(t, r), f)
  {
    hide Verdict, Accepted;
    ExchangeTargets(t, r);
  }

  lemma ExchangeConfused(t: Tables, r: Request, f: string, g: string)
    requires Verdict(t, r).None? && !Confused(t, f, g)
    ensures !Confused(Accepted(t, r), f, g)
  {
    hide Verdict, Accepted;
    Admitted(t, r);
    ExchangeTargets(t, r);
  }

  lemma ExchangeHaunted(t: Tables, r: Request, f: string, s: string)
    requires Verdict(t, r).None? && r.source !in t.sources && !Haunted(t, f, s) && !Confused(Accepted(t, r), f, r.fingerprint)
    ensures !Haunted(Accepted(t, r), f, s)
  {
    hide Verdict, Accepted;
    Admitted(t, r);
    ExchangeTargets(t, r);
    ExchangeSources(t, r);
  }

  // ----- Every run -----

  ghost predicate Registered(t: Tables) {
    && (forall s, v :: !Doubled(t, s, v))
    && (forall a, b :: !Shared(t, a, b))
    && (forall k :: TokenSound(t, k))
    && (forall k, l :: !TokenTwins(t, k, l))
    && (forall f, g :: !Confused(t, f, g))
    && (forall f, s :: !Haunted(t, f, s))
  }

  lemma PlainRegistered(t: Tables, step: Step)
    requires Registered(t) && Fresh(t, step)
    ensures Registered(Plain(t, step))
  {
    hide Plain, Doubled, Shared, TokenSound, TokenTwins, Confused, Haunted, Fresh;
    var next := Plain(t, step);
    forall s, v ensures !Doubled(next, s, v) { PlainOneLive(t, step, s, v); }
    forall a, b ensures !Shared(next, a, b) { PlainUnshared(t, step, a, b); }
    forall k ensures TokenSound(next, k) { PlainTokenSound(t, step, k); }
    forall k, l ensures !TokenTwins(next, k, l) { PlainTokenTwins(t, step, k, l); }
    forall f, g ensures !Confused(next, f, g) { PlainConfused(t, step, f, g); }
    forall f, s ensures !Haunted(next, f, s) { PlainHaunted(t, step, f, s); }
  }

  lemma ExchangeRegistered(t: Tables, r: Request)
    requires Registered(t) && Verdict(t, r).None? && r.source !in t.sources
    ensures Registered(Accepted(t, r))
  {
    hide Verdict, Accepted, Doubled, Shared, TokenSound, TokenTwins, Confused, Haunted;
    var next := Accepted(t, r);
    forall s, v ensures !Doubled(next, s, v) { ExchangeOneLive(t, r, s, v); }
    forall a, b ensures !Shared(next, a, b) { ExchangeUnshared(t, r, a, b); }
    forall k ensures TokenSound(next, k) { ExchangeTokenSound(t, r, k); }
    forall k, l ensures !TokenTwins(next, k, l) { ExchangeTokenTwins(t, r, k, l); }
    forall f, g ensures !Confused(next, f, g) { ExchangeConfused(t, r, f, g); }
    forall f, s ensures !Haunted(next, f, s) { ExchangeHaunted(t, r, f, s); }
  }

  lemma IdleRegistered(t: Tables, next: Tables)
    requires Registered(t) && Idle(t, next)
    ensures Registered(next)
  {
    assert forall s, v :: Doubled(next, s, v) ==> Doubled(t, s, v);
    assert forall a, b :: Shared(next, a, b) ==> Shared(t, a, b);
    assert forall k :: TokenSound(t, k) ==> TokenSound(next, k);
    assert forall k, l :: TokenTwins(next, k, l) ==> TokenTwins(t, k, l);
    assert forall f, g :: Confused(next, f, g) ==> Confused(t, f, g);
    assert forall f, s :: Haunted(next, f, s) ==> Haunted(t, f, s);
  }

  lemma StepRegistered(t: Tables, step: Step)
    requires Registered(t)
    ensures Registered(Apply(t, step))
  {
    hide *;
    StepCases(t, step);
    if Accepts(t, step) {
      AcceptsFresh(t, step);
      ExchangeRegistered(t, step.request);
    } else if Fresh(t, step) && Apply(t, step) == Plain(t, step) {
      PlainRegistered(t, step);
    } else {
      IdleRegistered(t, Apply(t, step));
    }
  }

  /** In every run: a target has at most one live source of a type, a source at most one
      environment and at most one refresh token, and then it is live and continuous; a
      revoked device has no live source. */
  lemma {:induction false} RegisteredAlways(steps: seq<Step>)
    ensures Registered(Run(steps))
  {
    hide Apply, Doubled, Shared, TokenSound, TokenTwins, Confused, Haunted;
    if steps == [] {
      EmptyRegistered();
    } else {
      RegisteredAlways(steps[..|steps| - 1]);
      StepRegistered(Run(steps[..|steps| - 1]), steps[|steps| - 1]);
    }
  }

  lemma EmptyRegistered()
    ensures Registered(EMPTY)
  {
  }

  /** Over every run a source keeps its target, its sequence never falls, its revocation
      is final, and it never goes back from continuous monitoring to quick scans. */
  lemma {:induction false} SourceHistory(steps: seq<Step>, i: nat, k: nat, s: string)
    requires i <= k <= |steps|
    ensures SourceKept(Run(steps[..i]), Run(steps[..k]), s)
  {
    hide Apply;
    if i == k {
    } else {
      SourceHistory(steps, i, k - 1, s);
      assert steps[..k][..k - 1] == steps[..k - 1];
      StepSource(Run(steps[..k - 1]), steps[k - 1], s);
    }
  }

  lemma StepTarget(t: Tables, step: Step, f: string)
    ensures TargetKept(t, Apply(t, step), f)
  {
    hide Apply, Plain, Accepted, Verdict, Fresh;
    StepCases(t, step);
    if Accepts(t, step) {
      ExchangeTarget(t, step.request, f);
    } else if Fresh(t, step) && Apply(t, step) == Plain(t, step) {
      PlainTarget(t, step, f);
    }
  }

  ghost predicate Banned(t: Tables, f: string, id: TargetId) {
    f in t.targets && t.targets[f].revoked && t.targets[f].id == id
  }

  /** A revoked device never regains a source. */
  lemma {:induction false} RevokedDevice(steps: seq<Step>, i: nat, k: nat, f: string, id: TargetId)
    requires i <= k <= |steps|
    ensures Banned(Run(steps[..i]), f, id) ==>
              && Banned(Run(steps[..k]), f, id)
              && forall s :: s in Run(steps[..k]).sources && Run(steps[..k]).sources[s].target == id ==> Run(steps[..k]).sources[s].revoked
  {
    hide Apply, Run;
    var t := Run(steps[..k]);
    if i == k {
    } else {
      RevokedDevice(steps, i, k - 1, f, id);
      RunStep(steps, k);
      StepTarget(Run(steps[..k - 1]), steps[k - 1], f);
    }
    RegisteredAlways(steps[..k]);
    forall s | Banned(t, f, id) && s in t.sources && t.sources[s].target == id
      ensures t.sources[s].revoked
    {
      assert !Haunted(t, f, s);
    }
  }

  ghost function BoundSource(t: Tables, r: Request): string
    requires Verdict(t, r).None?
  {
    var code := t.codes[r.code];
    var active := ActiveSource(t.sources, TargetAfter(t.targets, code, r).id, code.sourceType);
    if active.Some? then active.value else r.source
  }

  /** After an accepted exchange the device has a live source of the code's type and mode.
      A live source that was there is kept with its sequence, otherwise a new one starts at
      zero; it has a refresh token exactly under continuous monitoring. */
  lemma ExchangeBinds(t: Tables, r: Request)
    requires (forall k :: TokenSound(t, k)) && Verdict(t, r).None? && r.source !in t.sources
    ensures var code, next, s := t.codes[r.code], Accepted(t, r), BoundSource(t, r);
      && r.fingerprint in next.targets && !next.targets[r.fingerprint].revoked
      && Live(next.sources, s, next.targets[r.fingerprint].id, code.sourceType) && next.sources[s].mode == code.mode
      && next.sources[s].lastSequence == (if s in t.sources then t.sources[s].lastSequence else 0)
      && ((exists v :: Live(t.sources, v, next.targets[r.fingerprint].id, code.sourceType)) <==> s in t.sources)
      && (code.mode == Continuous <==> exists k :: k in next.tokens && next.tokens[k] == s)
  {
    hide Verdict, Accepted, ActiveSource;
    Admitted(t, r);
    ExchangeTargets(t, r);
    ExchangeSources(t, r);
    ExchangeTokens(t, r);
    var s, next := BoundSource(t, r), Accepted(t, r);
    if t.codes[r.code].mode == Continuous {
      assert r.refresh in next.tokens && next.tokens[r.refresh] == s;
    } else {
      forall k | k in next.tokens ensures next.tokens[k] != s {
        assert TokenSound(t, k);
      }
    }
  }

  // ----- One live source of a target -----

  /** Two live sources of one target. */
  predicate Crowd(t: Tables, target: TargetId, s: string, v: string) {
    && s in t.sources && v in t.sources && s != v && !t.sources[s].revoked && !t.sources[v].revoked
    && t.sources[s].target == target && t.sources[v].target == target
  }

  ghost predicate Crowded(t: Tables, target: TargetId) {
    exists s, v :: Crowd(t, target, s, v)
  }

  predicate OtherType(t: Tables, target: TargetId, sourceType: SourceType, s: string) {
    s in t.sources && !t.sources[s].revoked && t.sources[s].target == target && t.sources[s].sourceType != sourceType
  }

  /** An accepted exchange of a code whose type is not the one of the target's live source. */
  ghost predicate Doubles(t: Tables, r: Request, target: TargetId)
    requires r.code in t.codes
  {
    var code := t.codes[r.code];
    TargetAfter(t.targets, code, r).id == target && exists s :: OtherType(t, target, code.sourceType, s)
  }

  lemma PlainCrowd(t: Tables, step: Step, target: TargetId)
    requires !Crowded(t, target)
    ensures !Crowded(Plain(t, step), target)
  {
    hide Plain;
    forall s, v
      ensures !Crowd(Plain(t, step), target, s, v)
    {
      assert !Crowd(t, target, s, v);
      PlainSource(t, step, s);
      PlainSource(t, step, v);
    }
  }

  lemma ExchangeCrowd(t: Tables, r: Request, target: TargetId)
    requires Verdict(t, r).None? && r.source !in t.sources && r.code in t.codes && !Crowded(t, target)
    ensures Crowded(Accepted(t, r), target) <==> Doubles(t, r, target)
  {
    hide Verdict, Accepted, TargetAfter, ActiveSource;
    ExchangeSources(t, r);
    var code, next := t.codes[r.code], Accepted(t, r);
    var id := TargetAfter(t.targets, code, r).id;
    assert forall s, v :: !Crowd(t, target, s, v);
    if Doubles(t, r, target) {
      var s :| OtherType(t, target, code.sourceType, s);
      var active := ActiveSource(t.sources, id, code.sourceType);
      assert active.Some? ==> !Crowd(t, target, s, active.value);
      assert Crowd(next, target, s, r.source);
    } else {
      forall s, v
        ensures !Crowd(next, target, s, v)
      {
        assert id == target ==> !OtherType(t, target, code.sourceType, s) && !OtherType(t, target, code.sourceType, v);
        assert !Crowd(t, target, s, v);
        assert ActiveSource(t.sources, id, code.sourceType).None? ==> !Live(t.sources, s, id, code.sourceType) && !Live(t.sources, v, id, code.sourceType);
      }
    }
  }

  lemma IdleCrowd(t: Tables, next: Tables, target: TargetId)
    requires Idle(t, next) && !Crowded(t, target)
    ensures !Crowded(next, target)
  {
    assert forall s, v :: Crowd(next, target, s, v) ==> Crowd(t, target, s, v);
  }

  /** A target gets a second live source exactly when a code of another type than that of
      its live source is exchanged for it. */
  lemma CrowdedIff(t: Tables, step: Step, target: TargetId)
    requires !Crowded(t, target)
    ensures Crowded(Apply(t, step), target) <==> Accepts(t, step) && Doubles(t, step.request, target)
  {
    hide *;
    StepCases(t, step);
    if Accepts(t, step) {
      AcceptsFresh(t, step);
      ExchangeCrowd(t, step.request, target);
    } else if Fresh(t, step) && Apply(t, step) == Plain(t, step) {
      PlainCrowd(t, step, target);
    } else {
      IdleCrowd(t, Apply(t, step), target);
    }
  }

  /** No exchange of the run is such a one. */
  ghost predicate Uniform(steps: seq<Step>, target: TargetId) {
    steps == []
    || (Uniform(steps[..|steps| - 1], target)
        && var t, step := Run(steps[..|steps| - 1]), steps[|steps| - 1];
           Accepts(t, step) ==> !Doubles(t, step.request, target))
  }

  /** So in a run without one a target never has two live sources. */
  lemma {:induction false} AloneUniform(steps: seq<Step>, target: TargetId)
    requires Uniform(steps, target)
    ensures !Crowded(Run(steps), target)
  {
    hide Apply, Doubles, Crowded;
    if steps == [] {
      EmptyCrowd(target);
    } else {
      AloneUniform(steps[..|steps| - 1], target);
      CrowdedIff(Run(steps[..|steps| - 1]), steps[|steps| - 1], target);
    }
  }

  lemma EmptyCrowd(target: TargetId)
    ensures !Crowded(EMPTY, target)
  {
  }

  function Join(token: string): Request {
    Request(token, Continuous, None, "host", "cluster", true, false, true, "f", 1, true, token, token, token)
  }

  /** One key enrolls with a code for endpoints and then with one for clusters. */
  const TWICE := [Invite("e", 9, 1, Endpoint), Exchange(Join("e")), Invite("k", 9, 1, Kubernetes), Exchange(Join("k"))]

  const ENDPOINT_ONLY := EMPTY.(targets := map["f" := Target(Installation("f"), Endpoint, Continuous, false)],
                                sources := map["e" := Source(Installation("f"), Endpoint, Continuous, 0, false)],
                                tokens := map["e" := "e"])

  lemma FirstJoins()
    ensures Apply(Apply(EMPTY, TWICE[0]), TWICE[1]) == ENDPOINT_ONLY
  {
    var t, r := Apply(EMPTY, TWICE[0]), Join("e");
    assert t == EMPTY.(codes := map["e" := Code(None, None, 9, 1, 1, Endpoint, Continuous, false)]);
    assert ActiveSource(t.sources, Installation("f"), Endpoint).None?;
    assert Verdict(t, r).None?;
    assert Used(t.codes, "e") == map[];
  }

  lemma SecondJoins()
    ensures Crowded(Apply(Apply(ENDPOINT_ONLY, TWICE[2]), TWICE[3]), Installation("f"))
  {
    var t, r := Apply(ENDPOINT_ONLY, TWICE[2]), Join("k");
    assert t == ENDPOINT_ONLY.(codes := map["k" := Code(None, None, 9, 1, 1, Kubernetes, Continuous, false)]);
    assert ActiveSource(t.sources, Installation("f"), Kubernetes).None?;
    assert Verdict(t, r).None?;
    assert Crowd(Apply(t, TWICE[3]), Installation("f"), "e", "k");
  }

  /** It happens: the identity key does not tell what is enrolled. */
  lemma CrowdHappens()
    ensures Crowded(Run(TWICE), Installation("f"))
  {
    hide Apply, Crowded, TWICE;
    FirstJoins();
    SecondJoins();
    TwiceRuns();
  }

  lemma TwiceRuns()
    ensures Run(TWICE) == Apply(Apply(Apply(Apply(EMPTY, TWICE[0]), TWICE[1]), TWICE[2]), TWICE[3])
  {
    hide Apply;
    assert TWICE[..4] == TWICE && TWICE[..0] == [];
    RunStep(TWICE, 1);
    RunStep(TWICE, 2);
    RunStep(TWICE, 3);
    RunStep(TWICE, 4);
  }
}
