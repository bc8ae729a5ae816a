/** Whole runs of the ingestion: any interleaving of enrollments, deliveries of full
    and delta snapshots, withdrawals of sources, and revivals of withdrawn ones. */
module IngestionRuns {
  import opened Options
  import opened Posture
  import opened Presence
  import opened Ingestion

  datatype Step =
    | Enroll(source: string, target: string, mode: Mode)
    | Revive(source: string, target: string)
    | Deliver(snapshot: Snapshot)
    | Withdrawal(sources: set<string>, setMisses: bool)

  const EMPTY := Tables(map[], map[], map[], map[], map[])

  ghost function Apply(t: Tables, step: Step): Tables {
    match step
    case Enroll(source, target, mode) => t.(sources := Enrolled(t.sources, source, target, mode))
    case Revive(source, target) => t.(sources := Revived(t.sources, source, target))
    case Deliver(snapshot) => Ingest(t, snapshot)
    case Withdrawal(sources, setMisses) => Retire(t, sources, setMisses)
  }

  ghost function Run(steps: seq<Step>): Tables {
    if steps == [] then EMPTY else Apply(Run(steps[..|steps| - 1]), steps[|steps| - 1])
  }

  // ----- The projection after every run -----

  lemma ApplyValid(t: Tables, step: Step)
    requires Valid(t)
    ensures Valid(Apply(t, step))
  {
    match step
    case Enroll(source, target, mode) => SourcesValid(t, Enrolled(t.sources, source, target, mode));
    case Revive(source, target) => SourcesValid(t, Revived(t.sources, source, target));
    case Deliver(snapshot) => IngestValid(t, snapshot);
    case Withdrawal(sources, setMisses) => RetireValid(t, sources, setMisses);
  }

  lemma {:induction false} RunValid(steps: seq<Step>)
    ensures Valid(Run(steps))
  {
    if steps == [] {
    } else {
      RunValid(steps[..|steps| - 1]);
      ApplyValid(Run(steps[..|steps| - 1]), steps[|steps| - 1]);
    }
  }

  ghost predicate Speaks<P, A>(rows: Rows<P>, projection: Projection<A>, aggregate: Observed<P> -> Option<A>, id: string) {
    && ((exists s :: (s, id) in rows) ==> id in projection)
    && (id in projection ==>
          var e := projection[id];
          && (e.current <==> exists s :: (s, id) in rows && rows[(s, id)].current)
          && (e.stale <==> !exists s :: (s, id) in rows && rows[(s, id)].current && !rows[(s, id)].stale)
          && (e.current ==> aggregate(Current(rows, id)) == Some(e.value)))
  }

  lemma ConsistentSpeaks<P(!new), A(!new)>(rows: Rows<P>, projection: Projection<A>, aggregate: Observed<P> -> Option<A>, id: string)
    requires Consistent(rows, projection, aggregate)
    requires forall obs :: aggregate(obs).Some? <==> obs != map[]
    ensures Speaks(rows, projection, aggregate, id)
  {
    if s :| (s, id) in rows { assert (s, id).1 in projection; }
    if id in projection {
      assert Agrees(rows, id, projection[id], aggregate);
      forall s ensures (s, id) in rows && rows[(s, id)].current <==> s in Current(rows, id) { CurrentSource(rows, id, s); }
      if Current(rows, id) != map[] {
        var s :| s in Current(rows, id);
        assert (s, id) in rows && rows[(s, id)].current;
      }
      if key :| key in rows && key.1 == id && rows[key].current && !rows[key].stale {
        assert key == (key.0, id);
      }
    }
  }

  /** After every run, every observed subject is listed; it is current iff some source
      currently observes it, stale iff no such observation is fresh, and when current it
      equals the aggregate of exactly the current observations. */
  lemma ProjectionOfRun(steps: seq<Step>, id: string)
    ensures Speaks(Run(steps).entityRows, Run(steps).entities, AggregateEntity, id)
    ensures Speaks(Run(steps).relationRows, Run(steps).relations, AggregateRelation, id)
  {
    RunValid(steps);
    Aggregates();
    ConsistentSpeaks(Run(steps).entityRows, Run(steps).entities, AggregateEntity, id);
    ConsistentSpeaks(Run(steps).relationRows, Run(steps).relations, AggregateRelation, id);
  }

  // ----- The counter as a function of history -----

  /** What a source said: an accepted snapshot and the subjects in it, or a withdrawal. */
  datatype Event = Heard(full: bool, ids: set<string>) | Withdrawn(setMisses: bool)

  datatype Table = EntityTable | RelationTable

  ghost function Mentioned(s: Snapshot, table: Table): set<string> {
    match table
    case EntityTable => Ids(s.entities)
    case RelationTable => Ids(Completed(s))
  }

  /** What one step in tables `t` adds to the history of a source. */
  ghost function Told(t: Tables, step: Step, source: string, table: Table): seq<Event> {
    match step
    case Enroll(_, _, _) => []
    case Revive(_, _) => []
    case Deliver(s) =>
      if s.source == source && Admit(t.sources, s) == Applied then [Heard(s.full, Mentioned(s, table))] else []
    case Withdrawal(sources, setMisses) => if source in sources then [Withdrawn(setMisses)] else []
  }

  /** The accepted history of one source in a run. */
  ghost function History(steps: seq<Step>, source: string, table: Table): seq<Event> {
    if steps == [] then [] else
      var init := steps[..|steps| - 1];
      History(init, source, table) + Told(Run(init), steps[|steps| - 1], source, table)
  }

  datatype Track = Track(misses: nat, current: bool, stale: bool)

  /** Replaying a history for one subject. */
  function Tracked(history: seq<Event>, id: string): Option<Track> {
    if history == [] then None else
      var before := Tracked(history[..|history| - 1], id);
      match history[|history| - 1]
      case Heard(full, ids) =>
        if id in ids then Some(Track(0, true, false))
        else if before.Some? && full && before.value.current
        then Some(Track(before.value.misses + 1, before.value.misses + 1 < 3, before.value.misses + 1 >= 2))
        else before
      case Withdrawn(setMisses) =>
        if before.Some? then Some(Track(if setMisses then 3 else before.value.misses, false, true)) else None
  }

  ghost predicate Matches<P>(rows: Rows<P>, key: Key, track: Option<Track>) {
    match track
    case None => key !in rows
    case Some(t) => key in rows && rows[key].misses == t.misses && rows[key].current == t.current && rows[key].stale == t.stale
  }

  lemma MatchesStep<P>(rows: Rows<P>, s: Snapshot, sources: map<string, Source>, reports: seq<Report<P>>, key: Key, history: seq<Event>)
    requires Admit(sources, s) == Applied && RowInvariant(rows, sources)
    requires Matches(rows, key, Tracked(history, key.1))
    ensures Matches(RowsAfter(rows, s, NextSequence(sources[s.source], s), reports), key,
              Tracked(if key.0 == s.source then history + [Heard(s.full, Ids(reports))] else history, key.1))
  {
    var event := Heard(s.full, Ids(reports));
    assert (history + [event])[..|history|] == history;
    SeenRows(rows, s, NextSequence(sources[s.source], s), reports, key);
  }

  lemma WithdrawStep<P>(rows: Rows<P>, sources: set<string>, setMisses: bool, key: Key, history: seq<Event>)
    requires Matches(rows, key, Tracked(history, key.1))
    ensures Matches(Withdraw(rows, sources, setMisses), key,
              Tracked(if key.0 in sources then history + [Withdrawn(setMisses)] else history, key.1))
  {
    assert (history + [Withdrawn(setMisses)])[..|history|] == history;
  }

  lemma EntityStep(t: Tables, step: Step, key: Key, history: seq<Event>)
    requires RowInvariant(t.entityRows, t.sources) && Matches(t.entityRows, key, Tracked(history, key.1))
    ensures Matches(Apply(t, step).entityRows, key, Tracked(history + Told(t, step, key.0, EntityTable), key.1))
  {
    assert history + [] == history;
    match step
    case Enroll(_, _, _) =>
    case Revive(_, _) =>
    case Deliver(s) => if Admit(t.sources, s) == Applied { MatchesStep(t.entityRows, s, t.sources, s.entities, key, history); }
    case Withdrawal(sources, setMisses) => WithdrawStep(t.entityRows, sources, setMisses, key, history);
  }

  lemma RelationStep(t: Tables, step: Step, key: Key, history: seq<Event>)
    requires RowInvariant(t.relationRows, t.sources) && Matches(t.relationRows, key, Tracked(history, key.1))
    ensures Matches(Apply(t, step).relationRows, key, Tracked(history + Told(t, step, key.0, RelationTable), key.1))
  {
    assert history + [] == history;
    match step
    case Enroll(_, _, _) =>
    case Revive(_, _) =>
    case Deliver(s) => if Admit(t.sources, s) == Applied { MatchesStep(t.relationRows, s, t.sources, Completed(s), key, history); }
    case Withdrawal(sources, setMisses) => WithdrawStep(t.relationRows, sources, setMisses, key, history);
  }

  lemma {:induction false} RowsTracked(steps: seq<Step>, key: Key)
    ensures Matches(Run(steps).entityRows, key, Tracked(History(steps, key.0, EntityTable), key.1))
    ensures Matches(Run(steps).relationRows, key, Tracked(History(steps, key.0, RelationTable), key.1))
  {
    if steps == [] {
    } else {
      var init, last := steps[..|steps| - 1], steps[|steps| - 1];
      RowsTracked(init, key);
      RunValid(init);
      EntityStep(Run(init), last, key, History(init, key.0, EntityTable));
      RelationStep(Run(init), last, key, History(init, key.0, RelationTable));
    }
  }

  // ----- The closed form -----

  predicate MentionedAt(history: seq<Event>, i: int, id: string) {
    0 <= i < |history| && history[i].Heard? && id in history[i].ids
  }

  ghost predicate LastMention(history: seq<Event>, i: int, id: string) {
    MentionedAt(history, i, id) && forall j :: i < j < |history| ==> !MentionedAt(history, j, id)
  }

  predicate WithdrawnAfter(history: seq<Event>, i: nat) {
    exists j :: i < j < |history| && history[j].Withdrawn?
  }

  /** The full snapshots from position `from` on. */
  function Fulls(history: seq<Event>, from: nat): nat {
    if |history| <= from then 0
    else Fulls(history[..|history| - 1], from) + if history[|history| - 1].Heard? && history[|history| - 1].full then 1 else 0
  }

  function Min(a: nat, b: nat): nat { if a <= b then a else b }

  ghost predicate ThreeStrikes(history: seq<Event>, i: nat, track: Track) {
    if WithdrawnAfter(history, i) then !track.current && track.stale
    else
      && track.misses == Min(3, Fulls(history, i + 1))
      && (track.stale <==> track.misses >= 2)
      && (track.current <==> track.misses < 3)
  }

  lemma MentionStep(history: seq<Event>, id: string)
    requires history != []
    ensures forall i :: i != |history| - 1 ==> (MentionedAt(history, i, id) <==> MentionedAt(history[..|history| - 1], i, id))
  {
  }

  /** One more event keeps the counter in step with the closed form. */
  lemma StrikeStep(history: seq<Event>, id: string, i: nat)
    requires i < |history| - 1 && LastMention(history, i, id)
    requires Tracked(history[..|history| - 1], id).Some?
    requires ThreeStrikes(history[..|history| - 1], i, Tracked(history[..|history| - 1], id).value)
    ensures Tracked(history, id).Some? && ThreeStrikes(history, i, Tracked(history, id).value)
  {
    var n := |history| - 1;
    WithdrawnStep(history, i);
    assert !MentionedAt(history, n, id);
    assert Fulls(history, i + 1) == Fulls(history[..n], i + 1) + if history[n].Heard? && history[n].full then 1 else 0;
  }

  lemma {:induction false} TrackIsThreeStrikes(history: seq<Event>, id: string)
    ensures Tracked(history, id).Some? <==> exists i :: MentionedAt(history, i, id)
    ensures forall i :: LastMention(history, i, id) ==> Tracked(history, id).Some? && ThreeStrikes(history, i, Tracked(history, id).value)
  {
    if history == [] {
    } else {
      var n := |history| - 1;
      var init := history[..n];
      TrackIsThreeStrikes(init, id);
      MentionStep(history, id);
      if i :| MentionedAt(init, i, id) { assert MentionedAt(history, i, id); }
      if i :| MentionedAt(history, i, id) { assert i == n || MentionedAt(init, i, id); }
      if history[n].Heard? && id in history[n].ids { assert MentionedAt(history, n, id); }
      forall i | LastMention(history, i, id)
        ensures Tracked(history, id).Some? && ThreeStrikes(history, i, Tracked(history, id).value)
      {
        if i == n {
          assert Tracked(history, id) == Some(Track(0, true, false));
        } else {
          forall j | i < j < n ensures !MentionedAt(init, j, id) { assert !MentionedAt(history, j, id); }
          assert LastMention(init, i, id);
          StrikeStep(history, id, i);
        }
      }
    }
  }

  lemma WithdrawnStep(history: seq<Event>, i: nat)
    requires i < |history| - 1
    ensures WithdrawnAfter(history, i) <==> WithdrawnAfter(history[..|history| - 1], i) || history[|history| - 1].Withdrawn?
  {
    var n, init := |history| - 1, history[..|history| - 1];
    if j :| i < j < |history| && history[j].Withdrawn? { assert j < n ==> init[j] == history[j]; }
    if j :| i < j < |init| && init[j].Withdrawn? { assert history[j].Withdrawn?; }
    if history[n].Withdrawn? { assert i < n < |history|; }
  }

  ghost predicate RowIsHistory<P>(rows: Rows<P>, key: Key, history: seq<Event>) {
    && (key in rows <==> exists i :: MentionedAt(history, i, key.1))
    && (forall i :: LastMention(history, i, key.1) ==>
          key in rows && ThreeStrikes(history, i, Track(rows[key].misses, rows[key].current, rows[key].stale)))
  }

  /** After every run, a source has a row for a subject iff one of its accepted snapshots
      contained it; unless the source was withdrawn since, and perhaps revived after that,
      the row's counter is the number of accepted full snapshots since the last one that
      contained it, capped at three: stale from two, gone at three. Delta snapshots do not
      count. */
  lemma RowsOfRun(steps: seq<Step>, key: Key)
    ensures RowIsHistory(Run(steps).entityRows, key, History(steps, key.0, EntityTable))
    ensures RowIsHistory(Run(steps).relationRows, key, History(steps, key.0, RelationTable))
  {
    RowsTracked(steps, key);
    TrackIsThreeStrikes(History(steps, key.0, EntityTable), key.1);
    TrackIsThreeStrikes(History(steps, key.0, RelationTable), key.1);
  }

  // ----- Duplicates, reordering and retries -----

  /** A delivery that the source's enrollment lets through, apart from its sequence. */
  predicate Admissible(sources: map<string, Source>, s: Snapshot) {
    && s.source in sources && !sources[s.source].revoked
    && s.target == sources[s.source].target && s.mode == sources[s.source].mode
  }

  ghost function DeliverAll(t: Tables, stream: seq<Snapshot>): Tables {
    if stream == [] then t else Ingest(DeliverAll(t, stream[..|stream| - 1]), stream[|stream| - 1])
  }

  /** `s` has a higher sequence than its source had at the start and than every earlier
      admissible delivery of its source. */
  ghost predicate Record(sources: map<string, Source>, earlier: seq<Snapshot>, s: Snapshot) {
    && Admissible(sources, s)
    && s.sequence > sources[s.source].lastSequence
    && forall j :: 0 <= j < |earlier| && earlier[j].source == s.source && Admissible(sources, earlier[j]) ==> earlier[j].sequence < s.sequence
  }

  /** The strictly increasing running maxima of a stream. */
  ghost function Records(sources: map<string, Source>, stream: seq<Snapshot>): seq<Snapshot> {
    if stream == [] then [] else
      var init, last := stream[..|stream| - 1], stream[|stream| - 1];
      Records(sources, init) + if Record(sources, init, last) then [last] else []
  }

  ghost predicate SameEnrollment(a: map<string, Source>, b: map<string, Source>) {
    a.Keys == b.Keys && forall s :: s in a ==> a[s].target == b[s].target && a[s].mode == b[s].mode && a[s].revoked == b[s].revoked
  }

  /** The last sequence of a source is the highest one it was sent. */
  ghost predicate Highest(before: map<string, Source>, stream: seq<Snapshot>, source: string, sequence: nat)
    requires source in before
  {
    && before[source].lastSequence <= sequence
    && (forall j :: 0 <= j < |stream| && stream[j].source == source && Admissible(before, stream[j]) ==> stream[j].sequence <= sequence)
    && (sequence == before[source].lastSequence
        || exists j :: 0 <= j < |stream| && stream[j].source == source && Admissible(before, stream[j]) && stream[j].sequence == sequence)
  }

  lemma {:induction false} StreamSequences(t: Tables, stream: seq<Snapshot>)
    requires forall i :: 0 <= i < |stream| ==> stream[i].sequence > 0
    ensures SameEnrollment(t.sources, DeliverAll(t, stream).sources)
    ensures forall s :: s in t.sources ==> Highest(t.sources, stream, s, DeliverAll(t, stream).sources[s].lastSequence)
  {
    if stream == [] {
    } else {
      var n := |stream| - 1;
      var init, last := stream[..n], stream[n];
      StreamSequences(t, init);
      var u, v := DeliverAll(t, init), DeliverAll(t, stream);
      assert Admissible(t.sources, last) <==> Admissible(u.sources, last);
      forall s | s in t.sources ensures Highest(t.sources, stream, s, v.sources[s].lastSequence) {
        HighestStep(t.sources, stream, s, u.sources[s].lastSequence, v.sources[s].lastSequence);
      }
    }
  }

  lemma HighestStep(before: map<string, Source>, stream: seq<Snapshot>, s: string, prior: nat, next: nat)
    requires s in before && stream != [] && Highest(before, stream[..|stream| - 1], s, prior)
    requires var last := stream[|stream| - 1];
      next == if last.source == s && Admissible(before, last) && last.sequence > prior then last.sequence else prior
    ensures Highest(before, stream, s, next)
  {
    var n := |stream| - 1;
    var init := stream[..n];
    assert forall j :: 0 <= j < n ==> stream[j] == init[j];
    if next == prior {
      if j :| 0 <= j < n && init[j].source == s && Admissible(before, init[j]) && init[j].sequence == next {
        assert stream[j].sequence == next;
      }
    } else {
      assert stream[n].sequence == next;
    }
  }

  /** Delivering a stream with duplicates, reordering and retries does what delivering
      only its running maxima does; every other delivery changes nothing. */
  lemma {:induction false} OnlyRecordsCount(t: Tables, stream: seq<Snapshot>)
    requires forall i :: 0 <= i < |stream| ==> stream[i].sequence > 0
    ensures DeliverAll(t, stream) == DeliverAll(t, Records(t.sources, stream))
    ensures forall i :: 0 <= i < |stream| && !Record(t.sources, stream[..i], stream[i]) ==> DeliverAll(t, stream[..i + 1]) == DeliverAll(t, stream[..i])
  {
    if stream == [] {
    } else {
      var n := |stream| - 1;
      var init, last := stream[..n], stream[n];
      OnlyRecordsCount(t, init);
      StreamSequences(t, init);
      var u := DeliverAll(t, init);
      var kept := Records(t.sources, init);
      assert (kept + [last])[..|kept|] == kept;
      assert kept + [] == kept;
      RecordIffApplied(t, init, last);
      forall i | 0 <= i < |stream| && !Record(t.sources, stream[..i], stream[i])
        ensures DeliverAll(t, stream[..i + 1]) == DeliverAll(t, stream[..i])
      {
        if i == n {
          assert stream[..n + 1] == stream;
        } else {
          assert init[..i] == stream[..i] && init[..i + 1] == stream[..i + 1] && init[i] == stream[i];
        }
      }
    }
  }

  lemma RecordIffApplied(t: Tables, earlier: seq<Snapshot>, s: Snapshot)
    requires s.sequence > 0 && forall i :: 0 <= i < |earlier| ==> earlier[i].sequence > 0
    ensures Record(t.sources, earlier, s) <==> Admit(DeliverAll(t, earlier).sources, s) == Applied
  {
    StreamSequences(t, earlier);
    if Admissible(t.sources, s) {
      assert Highest(t.sources, earlier, s.source, DeliverAll(t, earlier).sources[s.source].lastSequence);
    }
  }

  /** Sending a numbered snapshot again, at once or after any other deliveries, changes nothing. */
  lemma ReplayIsIdle(t: Tables, s: Snapshot, between: seq<Snapshot>)
    requires s.sequence > 0 && Admit(t.sources, s) == Applied
    requires forall i :: 0 <= i < |between| ==> between[i].sequence > 0
    ensures var u := DeliverAll(Ingest(t, s), between);
      Admit(u.sources, s) == AlreadyApplied && Ingest(u, s) == u
  {
    StreamSequences(Ingest(t, s), between);
    assert Highest(Ingest(t, s).sources, between, s.source, DeliverAll(Ingest(t, s), between).sources[s.source].lastSequence);
  }
}
