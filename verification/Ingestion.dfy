/** What one accepted snapshot and one withdrawal do to the inventory tables
    (internal/hub/worker.go and the retire paths), as functions on the tables. */
module Ingestion {
  import opened Options
  import opened Posture
  import opened Presence

  datatype Mode = QuickScan | Continuous

  datatype Source = Source(target: string, mode: Mode, lastSequence: nat, lastFullSequence: nat, revoked: bool)

  /** One entity or relationship in a snapshot. */
  datatype Report<P> = Report(id: string, confidence: Confidence, attributes: Attributes, facts: P)

  datatype Snapshot = Snapshot(
    source: string, target: string, sourceType: string, mode: Mode, sequence: nat, full: bool, observedAt: int,
    entities: seq<Report<EntityFacts>>, relationships: seq<Report<RelationFacts>>)

  type Entities = Projection<EntityAggregate>
  type Relations = Projection<RelationAggregate>

  /** sources, source_entities, entities, source_relationships and relationships. */
  datatype Tables = Tables(
    sources: map<string, Source>,
    entityRows: Rows<EntityFacts>, entities: Entities,
    relationRows: Rows<RelationFacts>, relations: Relations)

  datatype Outcome = Applied | AlreadyApplied | UnknownSource | SourceRevoked | TargetMismatch | ModeMismatch

  /** The guards at the head of normalizeSnapshot, in their order. */
  function Admit(sources: map<string, Source>, s: Snapshot): Outcome {
    if s.source !in sources then UnknownSource
    else if sources[s.source].revoked then SourceRevoked
    else if s.target != sources[s.source].target then TargetMismatch
    else if s.mode != sources[s.source].mode then ModeMismatch
    else if s.sequence > 0 && s.sequence <= sources[s.source].lastSequence then AlreadyApplied
    else Applied
  }

  function NextSequence(source: Source, s: Snapshot): nat {
    if s.sequence == 0 then source.lastSequence + 1 else s.sequence
  }

  function Advance(source: Source, s: Snapshot): Source {
    var sequence := NextSequence(source, s);
    source.(lastSequence := sequence, lastFullSequence := if s.full then sequence else source.lastFullSequence)
  }

  function Observe<P>(s: Snapshot, r: Report<P>): Observation<P> {
    Observation(s.observedAt, r.confidence, r.attributes, r.facts)
  }

  /** An older collector leaves the surface and the observation state out. */
  function WithDefaults(s: Snapshot, facts: RelationFacts): RelationFacts {
    facts.(surface := if facts.surface == "" then s.sourceType else facts.surface,
           state := if facts.state == "" then "discovered" else facts.state)
  }

  function Completed(s: Snapshot): seq<Report<RelationFacts>> {
    seq(|s.relationships|, i requires 0 <= i < |s.relationships| =>
      s.relationships[i].(facts := WithDefaults(s, s.relationships[i].facts)))
  }

  /** The rows after the upserts of `reports`, in their order. */
  function SeeAll<P>(rows: Rows<P>, s: Snapshot, sequence: nat, reports: seq<Report<P>>): Rows<P> {
    if reports == [] then rows else
      var last := reports[|reports| - 1];
      SeeAll(rows, s, sequence, reports[..|reports| - 1])[(s.source, last.id) := Seen(Observe(s, last), sequence)]
  }

  function Ids<P>(reports: seq<Report<P>>): set<string> {
    set i | 0 <= i < |reports| :: reports[i].id
  }

  /** The rows after a whole snapshot. */
  function RowsAfter<P>(rows: Rows<P>, s: Snapshot, sequence: nat, reports: seq<Report<P>>): Rows<P> {
    var seen := SeeAll(rows, s, sequence, reports);
    if s.full then Age(seen, s.source, sequence) else seen
  }

  /** The projection after a whole snapshot: recomputed from scratch after the upserts,
      and once more after the ageing. */
  ghost function ProjectionAfter<P, A>(projection: Projection<A>, rows: Rows<P>, s: Snapshot, sequence: nat,
                                       reports: seq<Report<P>>, aggregate: Observed<P> -> Option<A>): Projection<A> {
    var seen := Project(projection, SeeAll(rows, s, sequence, reports), Ids(reports), aggregate);
    if s.full then Project(seen, RowsAfter(rows, s, sequence, reports), {}, aggregate) else seen
  }

  ghost function Ingest(t: Tables, s: Snapshot): Tables {
    if Admit(t.sources, s) != Applied then t else
      var sequence := NextSequence(t.sources[s.source], s);
      Tables(
        t.sources[s.source := Advance(t.sources[s.source], s)],
        RowsAfter(t.entityRows, s, sequence, s.entities),
        ProjectionAfter(t.entities, t.entityRows, s, sequence, s.entities, AggregateEntity),
        RowsAfter(t.relationRows, s, sequence, Completed(s)),
        ProjectionAfter(t.relations, t.relationRows, s, sequence, Completed(s), AggregateRelation))
  }

  /** Taking some sources out of the current inventory. */
  ghost function Retire(t: Tables, sources: set<string>, setMisses: bool): Tables {
    var entityRows := Withdraw(t.entityRows, sources, setMisses);
    var relationRows := Withdraw(t.relationRows, sources, setMisses);
    Tables(
      map id | id in t.sources :: if id in sources then t.sources[id].(revoked := true) else t.sources[id],
      entityRows, Project(t.entities, entityRows, {}, AggregateEntity),
      relationRows, Project(t.relations, relationRows, {}, AggregateRelation))
  }

  /** Enrollment adds a source, or gives an active one a new mode; a collector that
      enrolls again keeps its sequence. */
  function Enrolled(sources: map<string, Source>, source: string, target: string, mode: Mode): map<string, Source> {
    if source !in sources then sources[source := Source(target, mode, 0, 0, false)]
    else if sources[source].revoked then sources
    else sources[source := sources[source].(mode := mode)]
  }

  /** A repository that is selected again, or a cloud environment that is verified, upserts
      its source: a revoked one becomes active again and keeps its sequence. */
  function Revived(sources: map<string, Source>, source: string, target: string): map<string, Source> {
    if source !in sources then sources[source := Source(target, Continuous, 0, 0, false)]
    else sources[source := sources[source].(target := target, revoked := false)]
  }

  // ----- The invariant of the tables -----

  ghost predicate RowInvariant<P>(rows: Rows<P>, sources: map<string, Source>) {
    forall key :: key in rows ==>
      && key.0 in sources
      && rows[key].sequence <= sources[key.0].lastSequence
      && (rows[key].current ==> rows[key].misses < 3 && (rows[key].stale <==> rows[key].misses >= 2))
      && (!rows[key].current ==> rows[key].stale)
  }

  ghost predicate TableValid<P(!new), A(!new)>(rows: Rows<P>, projection: Projection<A>, sources: map<string, Source>,
                                               aggregate: Observed<P> -> Option<A>)
  {
    RowInvariant(rows, sources) && Consistent(rows, projection, aggregate)
  }

  ghost predicate Valid(t: Tables) {
    && TableValid(t.entityRows, t.entities, t.sources, AggregateEntity)
    && TableValid(t.relationRows, t.relations, t.sources, AggregateRelation)
  }

  lemma {:induction false} SeenRows<P>(rows: Rows<P>, s: Snapshot, sequence: nat, reports: seq<Report<P>>, key: Key)
    ensures var seen := SeeAll(rows, s, sequence, reports);
      if key.0 == s.source && key.1 in Ids(reports)
      then key in seen && exists i :: 0 <= i < |reports| && reports[i].id == key.1 && seen[key] == Seen(Observe(s, reports[i]), sequence)
      else (key in seen <==> key in rows) && (key in seen ==> seen[key] == rows[key])
  {
    if reports == [] {
    } else {
      var init, last := reports[..|reports| - 1], reports[|reports| - 1];
      SeenRows(rows, s, sequence, init, key);
      assert Ids(reports) == Ids(init) + {last.id} by {
        assert forall i :: 0 <= i < |init| ==> init[i] == reports[i];
        forall id | id in Ids(init) ensures id in Ids(reports) {
          var i :| 0 <= i < |init| && init[i].id == id;
          assert reports[i].id == id;
        }
      }
      if key == (s.source, last.id) {
        assert SeeAll(rows, s, sequence, reports)[key] == Seen(Observe(s, reports[|reports| - 1]), sequence);
      } else if key.0 == s.source && key.1 in Ids(init) {
        var i :| 0 <= i < |init| && init[i].id == key.1 && SeeAll(rows, s, sequence, init)[key] == Seen(Observe(s, init[i]), sequence);
        assert reports[i] == init[i];
      }
    }
  }

  /** A subject of the snapshot has a current, fresh row of its source. */
  lemma SeenNow<P>(rows: Rows<P>, s: Snapshot, sequence: nat, reports: seq<Report<P>>, id: string)
    requires id in Ids(reports)
    ensures var seen := SeeAll(rows, s, sequence, reports);
      s.source in Current(seen, id) && Fresh(seen, id)
  {
    SeenRows(rows, s, sequence, reports, (s.source, id));
    CurrentSource(SeeAll(rows, s, sequence, reports), id, s.source);
    assert (s.source, id) in SeeAll(rows, s, sequence, reports);
  }

  lemma SeenInvariant<P>(rows: Rows<P>, sources: map<string, Source>, s: Snapshot, reports: seq<Report<P>>)
    requires Admit(sources, s) == Applied && RowInvariant(rows, sources)
    ensures var source := sources[s.source];
      && RowInvariant(SeeAll(rows, s, NextSequence(source, s), reports), sources[s.source := Advance(source, s)])
      && RowInvariant(RowsAfter(rows, s, NextSequence(source, s), reports), sources[s.source := Advance(source, s)])
  {
    var source := sources[s.source];
    var seen := SeeAll(rows, s, NextSequence(source, s), reports);
    forall key | key in seen
      ensures && key.0 in sources[s.source := Advance(source, s)]
              && seen[key].sequence <= sources[s.source := Advance(source, s)][key.0].lastSequence
              && (seen[key].current ==> seen[key].misses < 3 && (seen[key].stale <==> seen[key].misses >= 2))
              && (!seen[key].current ==> seen[key].stale)
    {
      SeenRows(rows, s, NextSequence(source, s), reports, key);
    }
  }

  lemma AfterConsistent<P(!new), A(!new)>(projection: Projection<A>, rows: Rows<P>, s: Snapshot, sequence: nat,
                                          reports: seq<Report<P>>, aggregate: Observed<P> -> Option<A>)
    requires Consistent(rows, projection, aggregate)
    requires forall obs :: aggregate(obs).Some? <==> obs != map[]
    ensures Consistent(SeeAll(rows, s, sequence, reports),
                       Project(projection, SeeAll(rows, s, sequence, reports), Ids(reports), aggregate), aggregate)
    ensures Consistent(RowsAfter(rows, s, sequence, reports), ProjectionAfter(projection, rows, s, sequence, reports, aggregate), aggregate)
  {
    var seen := SeeAll(rows, s, sequence, reports);
    forall key | key in seen
      ensures key.1 in projection || (key.1 in Ids(reports) && aggregate(Current(seen, key.1)).Some?)
    {
      SeenRows(rows, s, sequence, reports, key);
      if key !in rows { SeenNow(rows, s, sequence, reports, key.1); }
    }
    ProjectConsistent(projection, seen, Ids(reports), aggregate);
    var middle := Project(projection, seen, Ids(reports), aggregate);
    ProjectConsistent(middle, RowsAfter(rows, s, sequence, reports), {}, aggregate);
  }

  lemma Aggregates()
    ensures forall obs :: AggregateEntity(obs).Some? <==> obs != map[]
    ensures forall obs :: AggregateRelation(obs).Some? <==> obs != map[]
  {
  }

  lemma IngestValid(t: Tables, s: Snapshot)
    requires Valid(t)
    ensures Valid(Ingest(t, s))
  {
    if Admit(t.sources, s) == Applied {
      var sequence := NextSequence(t.sources[s.source], s);
      Aggregates();
      SeenInvariant(t.entityRows, t.sources, s, s.entities);
      SeenInvariant(t.relationRows, t.sources, s, Completed(s));
      AfterConsistent(t.entities, t.entityRows, s, sequence, s.entities, AggregateEntity);
      AfterConsistent(t.relations, t.relationRows, s, sequence, Completed(s), AggregateRelation);
    }
  }

  lemma WithdrawValid<P(!new), A(!new)>(rows: Rows<P>, sources: map<string, Source>, next: map<string, Source>, projection: Projection<A>,
                                        gone: set<string>, setMisses: bool, aggregate: Observed<P> -> Option<A>)
    requires RowInvariant(rows, sources) && Consistent(rows, projection, aggregate)
    requires forall s :: s in sources ==> s in next && next[s].lastSequence == sources[s].lastSequence
    ensures RowInvariant(Withdraw(rows, gone, setMisses), next)
    ensures Consistent(Withdraw(rows, gone, setMisses), Project(projection, Withdraw(rows, gone, setMisses), {}, aggregate), aggregate)
  {
    ProjectConsistent(projection, Withdraw(rows, gone, setMisses), {}, aggregate);
  }

  lemma RetireValid(t: Tables, sources: set<string>, setMisses: bool)
    requires Valid(t)
    ensures Valid(Retire(t, sources, setMisses))
  {
    var next := Retire(t, sources, setMisses).sources;
    WithdrawValid(t.entityRows, t.sources, next, t.entities, sources, setMisses, AggregateEntity);
    WithdrawValid(t.relationRows, t.sources, next, t.relations, sources, setMisses, AggregateRelation);
  }

  lemma SameSequences<P(!new), A(!new)>(rows: Rows<P>, projection: Projection<A>, sources: map<string, Source>, next: map<string, Source>,
                                        aggregate: Observed<P> -> Option<A>)
    requires TableValid(rows, projection, sources, aggregate)
    requires forall s :: s in sources ==> s in next && next[s].lastSequence == sources[s].lastSequence
    ensures TableValid(rows, projection, next, aggregate)
  {
  }

  lemma SourcesValid(t: Tables, next: map<string, Source>)
    requires Valid(t)
    requires forall s :: s in t.sources ==> s in next && next[s].lastSequence == t.sources[s].lastSequence
    ensures Valid(t.(sources := next))
  {
    SameSequences(t.entityRows, t.entities, t.sources, next, AggregateEntity);
    SameSequences(t.relationRows, t.relations, t.sources, next, AggregateRelation);
  }

  // ----- What an accepted snapshot leaves in the rows -----

  /** The report is the last one of its subject in the snapshot. */
  predicate Final<P>(reports: seq<Report<P>>, i: nat) {
    i < |reports| && forall j :: i < j < |reports| ==> reports[j].id != reports[i].id
  }

  /** The row of the entity holds what the report `i` of the snapshot says. */
  ghost predicate EntityStored(rows: Rows<EntityFacts>, s: Snapshot, i: nat)
    requires i < |s.entities|
  {
    var r := s.entities[i];
    (s.source, r.id) in rows
    && var o := rows[(s.source, r.id)].observation;
       && o.seenAt == s.observedAt && o.confidence == r.confidence && o.attributes == r.attributes
       && o.facts.name == r.facts.name && o.facts.kind == r.facts.kind
       && o.facts.canonicalKey == r.facts.canonicalKey && o.facts.provenance == r.facts.provenance
  }

  /** And so does the row of the relationship; a missing surface is the source's type, a
      missing observation state "discovered". */
  ghost predicate RelationStored(rows: Rows<RelationFacts>, s: Snapshot, i: nat)
    requires i < |s.relationships|
  {
    var r := s.relationships[i];
    (s.source, r.id) in rows
    && var o := rows[(s.source, r.id)].observation;
       && o.seenAt == s.observedAt && o.confidence == r.confidence && o.attributes == r.attributes
       && o.facts.kind == r.facts.kind && o.facts.from == r.facts.from && o.facts.to == r.facts.to
       && (r.facts.surface != "" ==> o.facts.surface == r.facts.surface) && (r.facts.surface == "" ==> o.facts.surface == s.sourceType)
       && (r.facts.state != "" ==> o.facts.state == r.facts.state) && (r.facts.state == "" ==> o.facts.state == "discovered")
  }

  predicate NamesEntity(s: Snapshot, id: string) {
    exists i :: 0 <= i < |s.entities| && s.entities[i].id == id
  }

  predicate NamesRelation(s: Snapshot, id: string) {
    exists i :: 0 <= i < |s.relationships| && s.relationships[i].id == id
  }

  /** The row is there before and after, with the same observation. */
  ghost predicate Undisturbed<P>(rows: Rows<P>, next: Rows<P>, key: Key) {
    (key in next <==> key in rows) && (key in rows ==> next[key].observation == rows[key].observation)
  }

  /** What a snapshot has to store: each last report, and nothing else. */
  ghost predicate Stores(t: Tables, s: Snapshot, next: Tables) {
    && (forall i :: Final(s.entities, i) ==> EntityStored(next.entityRows, s, i))
    && (forall i :: Final(s.relationships, i) ==> RelationStored(next.relationRows, s, i))
    && (forall key: Key :: key.0 != s.source || !NamesEntity(s, key.1) ==> Undisturbed(t.entityRows, next.entityRows, key))
    && (forall key: Key :: key.0 != s.source || !NamesRelation(s, key.1) ==> Undisturbed(t.relationRows, next.relationRows, key))
  }

  lemma {:induction false} SeenFinal<P>(rows: Rows<P>, s: Snapshot, sequence: nat, reports: seq<Report<P>>, i: nat)
    requires Final(reports, i)
    ensures var key := (s.source, reports[i].id); var seen := SeeAll(rows, s, sequence, reports);
      && key in seen && seen[key].sequence == sequence
      && var o := seen[key].observation;
         o.seenAt == s.observedAt && o.confidence == reports[i].confidence && o.attributes == reports[i].attributes && o.facts == reports[i].facts
  {
    var n := |reports| - 1;
    if i == n {
    } else {
      assert reports[n].id != reports[i].id;
      assert Final(reports[..n], i);
      SeenFinal(rows, s, sequence, reports[..n], i);
    }
  }

  lemma AfterFinal<P>(rows: Rows<P>, s: Snapshot, sequence: nat, reports: seq<Report<P>>, i: nat)
    requires Final(reports, i)
    ensures var key := (s.source, reports[i].id); var next := RowsAfter(rows, s, sequence, reports);
      && key in next
      && var o := next[key].observation;
         o.seenAt == s.observedAt && o.confidence == reports[i].confidence && o.attributes == reports[i].attributes && o.facts == reports[i].facts
  {
    SeenFinal(rows, s, sequence, reports, i);
  }

  lemma AfterOther<P>(rows: Rows<P>, s: Snapshot, sequence: nat, reports: seq<Report<P>>, key: Key)
    requires key.0 != s.source || key.1 !in Ids(reports)
    ensures Undisturbed(rows, RowsAfter(rows, s, sequence, reports), key)
  {
    SeenRows(rows, s, sequence, reports, key);
  }

  lemma EntityRowsStored(t: Tables, s: Snapshot, i: nat)
    requires Admit(t.sources, s) == Applied && Final(s.entities, i)
    ensures EntityStored(Ingest(t, s).entityRows, s, i)
  {
    hide RowsAfter;
    AfterFinal(t.entityRows, s, NextSequence(t.sources[s.source], s), s.entities, i);
  }

  lemma RelationRowsStored(t: Tables, s: Snapshot, i: nat)
    requires Admit(t.sources, s) == Applied && Final(s.relationships, i)
    ensures RelationStored(Ingest(t, s).relationRows, s, i)
  {
    hide RowsAfter;
    assert Final(Completed(s), i);
    AfterFinal(t.relationRows, s, NextSequence(t.sources[s.source], s), Completed(s), i);
  }

  /** An accepted snapshot stores what it says, and touches no other observation. */
  lemma IngestStores(t: Tables, s: Snapshot)
    requires Admit(t.sources, s) == Applied
    ensures Stores(t, s, Ingest(t, s))
  {
    assert s.source in t.sources;
    hide Admit, RowsAfter, ProjectionAfter, EntityStored, RelationStored, Undisturbed;
    var next, sequence := Ingest(t, s), NextSequence(t.sources[s.source], s);
    forall i | Final(s.entities, i) ensures EntityStored(next.entityRows, s, i) { EntityRowsStored(t, s, i); }
    forall i | Final(s.relationships, i) ensures RelationStored(next.relationRows, s, i) { RelationRowsStored(t, s, i); }
    forall key: Key | key.0 != s.source || !NamesEntity(s, key.1) ensures Undisturbed(t.entityRows, next.entityRows, key) {
      AfterOther(t.entityRows, s, sequence, s.entities, key);
    }
    forall key: Key | key.0 != s.source || !NamesRelation(s, key.1) ensures Undisturbed(t.relationRows, next.relationRows, key) {
      assert key.1 in Ids(Completed(s)) ==> NamesRelation(s, key.1);
      AfterOther(t.relationRows, s, sequence, Completed(s), key);
    }
  }

  /** The reasons of a refusal, each with the facts that the earlier ones have left. */
  ghost predicate Answers(sources: map<string, Source>, s: Snapshot, outcome: Outcome) {
    && (outcome == UnknownSource <==> s.source !in sources)
    && (s.source in sources ==>
          var source := sources[s.source];
          && (outcome == SourceRevoked <==> source.revoked)
          && (outcome == TargetMismatch <==> !source.revoked && source.target != s.target)
          && (outcome == ModeMismatch <==> !source.revoked && source.target == s.target && source.mode != s.mode)
          && (outcome == Applied <==> !source.revoked && source.target == s.target && source.mode == s.mode
                                       && (s.sequence == 0 || s.sequence > source.lastSequence)))
  }

  /** An accepted snapshot moves its source forward, a full one also its full sequence,
      and no other source. */
  ghost predicate Advances(sources: map<string, Source>, s: Snapshot, next: map<string, Source>)
    requires s.source in sources
  {
    && next.Keys == sources.Keys && (forall other :: other in sources && other != s.source ==> next[other] == sources[other])
    && var was, now := sources[s.source], next[s.source];
       && now.target == was.target && now.mode == was.mode && now.revoked == was.revoked
       && now.lastSequence > was.lastSequence && (s.sequence > 0 ==> now.lastSequence == s.sequence)
       && (s.sequence == 0 ==> now.lastSequence == was.lastSequence + 1)
       && (s.full ==> now.lastFullSequence == now.lastSequence) && (!s.full ==> now.lastFullSequence == was.lastFullSequence)
  }

  lemma AdmitAnswers(sources: map<string, Source>, s: Snapshot)
    ensures Answers(sources, s, Admit(sources, s))
  {
  }

  lemma IngestAdvances(t: Tables, s: Snapshot)
    requires Admit(t.sources, s) == Applied
    ensures Advances(t.sources, s, Ingest(t, s).sources)
  {
  }

  /** A withdrawal revokes exactly its sources and changes nothing else of any; every row
      of them is out of the inventory with its observation, and all others stay. */
  ghost predicate Retired(t: Tables, gone: set<string>, setMisses: bool, next: Tables) {
    && next.sources.Keys == t.sources.Keys
    && (forall s :: s in t.sources ==> next.sources[s] == t.sources[s].(revoked := next.sources[s].revoked))
    && (forall s :: s in t.sources ==> (next.sources[s].revoked <==> t.sources[s].revoked || s in gone))
    && (forall key: Key :: OutOf(t.entityRows, gone, setMisses, next.entityRows, key))
    && (forall key: Key :: OutOf(t.relationRows, gone, setMisses, next.relationRows, key))
  }

  ghost predicate OutOf<P>(rows: Rows<P>, gone: set<string>, setMisses: bool, next: Rows<P>, key: Key) {
    && (key in next <==> key in rows)
    && (key in rows && key.0 !in gone ==> next[key] == rows[key])
    && (key in rows && key.0 in gone ==>
          && !next[key].current && next[key].stale
          && next[key].observation == rows[key].observation && next[key].sequence == rows[key].sequence
          && (setMisses ==> next[key].misses == 3) && (!setMisses ==> next[key].misses == rows[key].misses))
  }

  lemma RetireWithdraws(t: Tables, gone: set<string>, setMisses: bool)
    ensures Retired(t, gone, setMisses, Retire(t, gone, setMisses))
  {
    hide Project;
  }

  /** An enrollment changes the mode of a live source at most; a revival makes it live
      under the target and keeps its sequences. */
  lemma SourceWrites(sources: map<string, Source>, source: string, target: string, mode: Mode)
    ensures var next := Enrolled(sources, source, target, mode);
      && next.Keys == sources.Keys + {source}
      && (forall other :: other in sources && other != source ==> next[other] == sources[other])
      && (source in sources ==> next[source] == sources[source].(mode := next[source].mode))
      && (source in sources && sources[source].revoked ==> next[source].mode == sources[source].mode)
      && (source !in sources || !sources[source].revoked ==> next[source].mode == mode && !next[source].revoked)
      && (source !in sources ==> next[source].target == target && next[source].lastSequence == next[source].lastFullSequence == 0)
    ensures var next := Revived(sources, source, target);
      && next.Keys == sources.Keys + {source}
      && (forall other :: other in sources && other != source ==> next[other] == sources[other])
      && !next[source].revoked && next[source].target == target
      && (source in sources ==>
            && next[source].mode == sources[source].mode && next[source].lastSequence == sources[source].lastSequence
            && next[source].lastFullSequence == sources[source].lastFullSequence)
      && (source !in sources ==> next[source].mode == Continuous && next[source].lastSequence == next[source].lastFullSequence == 0)
  {
  }
}
