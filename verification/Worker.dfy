/** The Hub's inventory tables and the code that changes them step by step: snapshot
    ingestion (internal/hub/worker.go) and the four ways to retire a source
    (internal/hub/server.go, environments.go, github.go, device_fleet.go). */
module Worker {
  import opened Options
  import opened Sorting
  import opened Posture
  import opened EntityDiff
  import opened Presence
  import opened Ingestion

  datatype Kind = Discovered | Updated | BecameStale | Removed

  /** A row of the change log: recordChange, with the fields of its details. */
  datatype Entry = Entry(kind: Kind, entity: string, fields: seq<Field>)

  datatype Flags = Flags(current: bool, stale: bool)

  /** A reader of the log knows an entity's flags from its last telling entry. */
  ghost function Replay(log: seq<Entry>, id: string): Option<Flags> {
    if log == [] then None else
      var last := log[|log| - 1];
      if last.entity != id then Replay(log[..|log| - 1], id)
      else match last.kind
        case Discovered => Some(Flags(true, false))
        case BecameStale => Some(Flags(true, true))
        case Removed => Some(Flags(false, true))
        case Updated =>
          if exists f :: f in last.fields && f.CurrentField? then Some(Flags(true, false))
          else Replay(log[..|log| - 1], id)
  }

  ghost predicate Faithful(log: seq<Entry>, entities: Entities) {
    forall id :: id in entities ==> Replay(log, id) == Some(Flags(entities[id].current, entities[id].stale))
  }

  lemma ReplayAppend(log: seq<Entry>, e: Entry, id: string)
    ensures Replay(log + [e], id) ==
            if e.entity != id || (e.kind == Updated && forall f :: f in e.fields ==> !f.CurrentField?) then Replay(log, id)
            else Some(Flags(e.kind != Removed, e.kind == BecameStale || e.kind == Removed))
  {
    assert (log + [e])[..|log|] == log;
  }

  /** An entry that tells nothing about flags. */
  lemma ReplayNeutral(log: seq<Entry>, e: Entry, entities: Entities)
    requires Faithful(log, entities) && e.kind == Updated && forall f :: f in e.fields ==> !f.CurrentField?
    ensures Faithful(log + [e], entities)
  {
    forall id | id in entities ensures Replay(log + [e], id) == Replay(log, id) { ReplayAppend(log, e, id); }
  }

  /** An entry that tells the new flags of its entity. */
  lemma ReplayTelling(log: seq<Entry>, e: Entry, entities: Entities, summary: Summary<EntityAggregate>)
    requires Faithful(log, entities)
    requires e.kind == Updated ==> exists f :: f in e.fields && f.CurrentField?
    requires summary.current == (e.kind != Removed) && summary.stale == (e.kind == BecameStale || e.kind == Removed)
    ensures Faithful(log + [e], entities[e.entity := summary])
  {
    forall id | id in entities[e.entity := summary]
      ensures Replay(log + [e], id) == Some(Flags(entities[e.entity := summary][id].current, entities[e.entity := summary][id].stale))
    {
      ReplayAppend(log, e, id);
    }
  }

  // ----- Repairing a projection subject by subject -----

  /** A projection in which only the subjects in `done` have been recomputed. */
  ghost function Repaired<P, A>(before: Projection<A>, rows: Rows<P>, done: set<string>, aggregate: Observed<P> -> Option<A>): Projection<A> {
    map id | id in before :: if id in done then Recomputed(before, rows, id, aggregate) else before[id]
  }

  lemma RepairedNone<P, A>(before: Projection<A>, rows: Rows<P>, aggregate: Observed<P> -> Option<A>)
    ensures Repaired(before, rows, {}, aggregate) == before
  {
  }

  lemma RepairedKeys<P, A>(before: Projection<A>, rows: Rows<P>, done: set<string>, aggregate: Observed<P> -> Option<A>)
    ensures Repaired(before, rows, done, aggregate).Keys == before.Keys
  {
  }

  lemma RepairedStep<P, A>(before: Projection<A>, rows: Rows<P>, done: set<string>, id: string, aggregate: Observed<P> -> Option<A>)
    requires id in before && id !in done
    ensures id in Repaired(before, rows, done, aggregate)
    ensures Recomputed(Repaired(before, rows, done, aggregate), rows, id, aggregate) == Recomputed(before, rows, id, aggregate)
    ensures Repaired(before, rows, done + {id}, aggregate) ==
            Repaired(before, rows, done, aggregate)[id := Recomputed(before, rows, id, aggregate)]
    ensures Repaired(before, rows, done, aggregate)[id] == before[id]
  {
  }

  lemma RepairedAt<P, A>(before: Projection<A>, rows: Rows<P>, done: set<string>, id: string, aggregate: Observed<P> -> Option<A>)
    requires id in before && id in done
    ensures id in Repaired(before, rows, done, aggregate)
    ensures Repaired(before, rows, done, aggregate)[id] == Recomputed(before, rows, id, aggregate)
  {
  }

  /** Repairing the subjects whose view changed is recomputing everything. */
  lemma RepairedAll<P(!new), A(!new)>(before: Projection<A>, rows: Rows<P>, next: Rows<P>, done: set<string>, aggregate: Observed<P> -> Option<A>)
    requires Consistent(rows, before, aggregate)
    requires forall id :: id in before && id !in done ==> Current(next, id) == Current(rows, id) && Fresh(next, id) == Fresh(rows, id)
    ensures Repaired(before, next, done, aggregate) == Project(before, next, {}, aggregate)
  {
    var a, b := Repaired(before, next, done, aggregate), Project(before, next, {}, aggregate);
    assert b.Keys == before.Keys == a.Keys;
    forall id | id in before ensures a[id] == b[id] {
      if id !in done {
        assert Agrees(rows, id, before[id], aggregate);
        RecomputedIdle(before, rows, next, id, aggregate);
      }
    }
  }

  lemma ProjectIdle<P(!new), A(!new)>(projection: Projection<A>, rows: Rows<P>, aggregate: Observed<P> -> Option<A>)
    requires Consistent(rows, projection, aggregate)
    ensures Project(projection, rows, {}, aggregate) == projection
  {
    RepairedAll(projection, rows, rows, {}, aggregate);
    assert Repaired(projection, rows, {}, aggregate) == projection;
  }

  lemma SeenFresh<P>(rows: Rows<P>, source: string, row: Row<P>, id: string)
    requires row.current && !row.stale
    ensures var next := rows[(source, id) := row]; Current(next, id) != map[] && Fresh(next, id)
  {
    var next := rows[(source, id) := row];
    CurrentSource(next, id, source);
    assert (source, id) in next && next[(source, id)] == row;
  }

  /** An entry of the projection depends on its own subject's rows only. */
  lemma ProjectEntry<P(!new), A(!new)>(projection: Projection<A>, rows: Rows<P>, next: Rows<P>, id: string,
                                       added: set<string>, more: set<string>, aggregate: Observed<P> -> Option<A>)
    requires Current(next, id) == Current(rows, id) && Fresh(next, id) == Fresh(rows, id)
    requires id in added <==> id in more
    ensures var a, b := Project(projection, rows, added, aggregate), Project(projection, next, more, aggregate);
      (id in a <==> id in b) && (id in a ==> a[id] == b[id])
  {
    assert Listed(projection, next, id, aggregate) <==> Listed(projection, rows, id, aggregate);
  }

  /** One upsert more: only its own subject is recomputed, and that one is fresh. */
  lemma ProjectSeen<P(!new), A(!new)>(projection: Projection<A>, rows: Rows<P>, next: Rows<P>, id: string,
                                      added: set<string>, aggregate: Observed<P> -> Option<A>)
    requires forall other :: other != id ==> Current(next, other) == Current(rows, other) && Fresh(next, other) == Fresh(rows, other)
    requires aggregate(Current(next, id)).Some? && Fresh(next, id)
    ensures Project(projection, next, added + {id}, aggregate) ==
            Project(projection, rows, added, aggregate)[id := Summary(aggregate(Current(next, id)).value, true, false)]
  {
    var a := Project(projection, next, added + {id}, aggregate);
    var b := Project(projection, rows, added, aggregate);
    var entry := Summary(aggregate(Current(next, id)).value, true, false);
    assert id in a && a[id] == entry;
    forall other | other != id ensures (other in a <==> other in b) && (other in a ==> a[other] == b[other]) {
      ProjectEntry(projection, rows, next, other, added, added + {id}, aggregate);
    }
    SameMap(a, b, id, entry);
  }

  lemma SameMap<A>(a: map<string, A>, b: map<string, A>, id: string, entry: A)
    requires id in a && a[id] == entry
    requires forall other :: other != id ==> (other in a <==> other in b) && (other in a ==> a[other] == b[other])
    ensures a == b[id := entry]
  {
  }

  // ----- What a snapshot writes into the log -----

  /** One upserted entity: its entry, and then a notice for each connected root system if
      the change reaches them. */
  ghost predicate EntityNoted(log: seq<Entry>, next: seq<Entry>, relations: Relations, systems: set<string>, id: string,
                              before: Entities, after: Entities, entry: Option<Entry>, scope: bool, roots: seq<string>)
  {
    && Tells(entry, scope, id, before, after)
    && (scope ==> Listing(roots, Neighbours(relations, id, systems)))
    && next == log + if entry.None? then [] else if scope then [entry.value] + Notices(roots, entry.value.fields) else [entry.value]
  }

  ghost predicate EntityLogged(log: seq<Entry>, next: seq<Entry>, relations: Relations, systems: set<string>, id: string,
                               before: Entities, after: Entities)
  {
    exists entry, scope, roots :: EntityNoted(log, next, relations, systems, id, before, after, entry, scope, roots)
  }

  /** The entities after the first `k` upserts. */
  ghost function EntitiesAt(rows: Rows<EntityFacts>, entities: Entities, s: Snapshot, sequence: nat, k: nat): Entities
    requires k <= |s.entities|
  {
    Project(entities, SeeAll(rows, s, sequence, s.entities[..k]), Ids(s.entities[..k]), AggregateEntity)
  }

  /** The upsert number `k` and its part of the log. */
  ghost predicate EntityTurn(rows: Rows<EntityFacts>, entities: Entities, relations: Relations, s: Snapshot, sequence: nat, systems: set<string>,
                             k: nat, log: seq<Entry>, next: seq<Entry>)
  {
    k < |s.entities|
    && EntityLogged(log, next, relations, systems, s.entities[k].id, EntitiesAt(rows, entities, s, sequence, k), EntitiesAt(rows, entities, s, sequence, k + 1))
  }

  /** `logs` are the logs before the first upsert and after each of the first `k`. */
  ghost predicate EntitiesLogged(rows: Rows<EntityFacts>, entities: Entities, relations: Relations, s: Snapshot, sequence: nat, systems: set<string>,
                                 k: nat, logs: seq<seq<Entry>>, log: seq<Entry>, next: seq<Entry>)
  {
    && |logs| == k + 1 && logs[0] == log && logs[k] == next
    && forall i: nat :: i < k ==> EntityTurn(rows, entities, relations, s, sequence, systems, i, logs[i], logs[i + 1])
  }

  ghost function RelationsAt(rows: Rows<RelationFacts>, relations: Relations, s: Snapshot, sequence: nat, k: nat): Relations
    requires k <= |s.relationships|
  {
    Project(relations, SeeAll(rows, s, sequence, Completed(s)[..k]), Ids(Completed(s)[..k]), AggregateRelation)
  }

  /** One upserted relationship: an entry for its origin, unless that was discovered by the
      same snapshot or nothing has changed. */
  ghost function RelationNote(r: Report<RelationFacts>, discovered: set<string>, before: Relations, after: Relations): seq<Entry> {
    if r.facts.from in discovered then []
    else if r.id in before && r.id in after && before[r.id].current && !before[r.id].stale && SameMaterial(before[r.id].value, after[r.id].value) then []
    else [Entry(Updated, r.facts.from, [])]
  }

  ghost function RelationNotes(rows: Rows<RelationFacts>, relations: Relations, s: Snapshot, sequence: nat, discovered: set<string>, k: nat): seq<Entry>
    requires k <= |s.relationships|
  {
    if k == 0 then [] else
      RelationNotes(rows, relations, s, sequence, discovered, k - 1)
      + RelationNote(s.relationships[k - 1], discovered, RelationsAt(rows, relations, s, sequence, k - 1), RelationsAt(rows, relations, s, sequence, k))
  }

  /** The aged subjects, in some order: an entity that became stale or is gone is told once,
      and so is the origin of a relationship that is gone. */
  ghost function AgeNotes(ids: seq<string>, before: Entities, after: Entities): seq<Entry> {
    if ids == [] then [] else
      var id := ids[|ids| - 1];
      AgeNotes(ids[..|ids| - 1], before, after) + if id in before && id in after then AgeLog([], id, before[id], after[id]) else []
  }

  ghost function LossNotes(ids: seq<string>, before: Relations, after: Relations): seq<Entry> {
    if ids == [] then [] else
      var id := ids[|ids| - 1];
      LossNotes(ids[..|ids| - 1], before, after)
      + if id in before && id in after && before[id].current && !after[id].current then [Entry(Updated, before[id].value.from, [])] else []
  }

  ghost predicate Listing(ids: seq<string>, all: set<string>) {
    Members(ids) == all && |ids| == |all|
  }

  /** The whole log of an accepted snapshot: its entities, its relationships, and after a
      full one what is aged. */
  ghost predicate SnapshotNoted(t: Tables, s: Snapshot, systems: set<string>, log: seq<Entry>, logs: seq<seq<Entry>>, seen: seq<Entry>,
                                aged: seq<string>, mid: seq<Entry>, lost: seq<string>, next: Tables, final: seq<Entry>)
    requires s.source in t.sources
  {
    var sequence := NextSequence(t.sources[s.source], s);
    var rows, relationRows := SeeAll(t.entityRows, s, sequence, s.entities), SeeAll(t.relationRows, s, sequence, Completed(s));
    var told := seen + RelationNotes(t.relationRows, t.relations, s, sequence, Ids(s.entities) - t.entities.Keys, |s.relationships|);
    && EntitiesLogged(t.entityRows, t.entities, t.relations, s, sequence, systems, |s.entities|, logs, log, seen)
    && if s.full then
         && AgedTo(told, mid, aged, MissedIds(rows, s.source, sequence), EntitiesAt(t.entityRows, t.entities, s, sequence, |s.entities|), next.entities)
         && LostTo(mid, final, lost, MissedIds(relationRows, s.source, sequence),
                   RelationsAt(t.relationRows, t.relations, s, sequence, |s.relationships|), next.relations)
       else final == told
  }

  ghost predicate SnapshotLogged(t: Tables, s: Snapshot, systems: set<string>, log: seq<Entry>, next: Tables, final: seq<Entry>)
    requires s.source in t.sources
  {
    exists logs, seen, aged, mid, lost :: SnapshotNoted(t, s, systems, log, logs, seen, aged, mid, lost, next, final)
  }

  ghost predicate AgedTo(log: seq<Entry>, next: seq<Entry>, ids: seq<string>, done: set<string>, before: Entities, after: Entities) {
    Listing(ids, done) && next == log + AgeNotes(ids, before, after)
  }

  lemma AgedNone(log: seq<Entry>, before: Entities, after: Entities)
    ensures AgedTo(log, log, [], {}, before, after)
  {
  }

  lemma AgedOneMore(log: seq<Entry>, mid: seq<Entry>, next: seq<Entry>, ids: seq<string>, done: set<string>, before: Entities, after: Entities, id: string)
    requires AgedTo(log, mid, ids, done, before, after) && id !in done && id in before && id in after
    requires next == AgeLog(mid, id, before[id], after[id])
    ensures AgedTo(log, next, ids + [id], done + {id}, before, after)
  {
    hide Listing, AgeLog;
    ListingAppend(ids, done, id);
    assert (ids + [id])[..|ids|] == ids;
    LogAppend(mid, id, before[id], after[id]);
  }

  lemma LogAppend<A>(log: seq<Entry>, id: string, was: Summary<A>, now: Summary<A>)
    ensures AgeLog(log, id, was, now) == log + AgeLog([], id, was, now)
  {
  }

  ghost predicate LostTo(log: seq<Entry>, next: seq<Entry>, ids: seq<string>, done: set<string>, before: Relations, after: Relations) {
    Listing(ids, done) && next == log + LossNotes(ids, before, after)
  }

  lemma LostNone(log: seq<Entry>, before: Relations, after: Relations)
    ensures LostTo(log, log, [], {}, before, after)
  {
  }

  lemma ListingAppend(ids: seq<string>, done: set<string>, id: string)
    requires Listing(ids, done) && id !in done
    ensures Listing(ids + [id], done + {id})
  {
    MembersAppend(ids, id);
  }

  lemma LostOneMore(log: seq<Entry>, mid: seq<Entry>, next: seq<Entry>, ids: seq<string>, done: set<string>, before: Relations, after: Relations, id: string)
    requires LostTo(log, mid, ids, done, before, after) && id !in done && id in before && id in after
    requires next == mid + if before[id].current && !after[id].current then [Entry(Updated, before[id].value.from, [])] else []
    ensures LostTo(log, next, ids + [id], done + {id}, before, after)
  {
    hide Listing;
    ListingAppend(ids, done, id);
    assert (ids + [id])[..|ids|] == ids;
  }

  /** The root systems with a current relationship to or from the changed entity. */
  lemma NeighboursAre(relations: Relations, changed: string, systems: set<string>, id: string)
    ensures id in Neighbours(relations, changed, systems) <==>
              && id in systems && id != changed
              && exists r :: r in relations && relations[r].current
                             && ((relations[r].value.from == changed && relations[r].value.to == id)
                                 || (relations[r].value.to == changed && relations[r].value.from == id))
  {
    if r :| r in relations && relations[r].current
            && ((relations[r].value.from == changed && relations[r].value.to == id)
                || (relations[r].value.to == changed && relations[r].value.from == id)) {
      assert id != changed ==> Links(relations[r], changed, id);
    }
    if r :| r in relations && Links(relations[r], changed, id) {
      assert relations[r].current;
    }
  }

  // ----- The Hub -----

  /** The rows of a query, in any order. */
  method Enumerate(all: set<string>) returns (ids: seq<string>)
    ensures Members(ids) == all && |ids| == |all|
  {
    ids := [];
    var rest := all;
    while rest != {}
      invariant rest <= all && Members(ids) == all - rest && |ids| + |rest| == |all|
    {
      var id :| id in rest;
      MembersAppend(ids, id);
      ids := ids + [id];
      rest := rest - {id};
    }
  }

  class Hub {
    var sources: map<string, Source>
    var entityRows: Rows<EntityFacts>
    var entities: Entities
    var relationRows: Rows<RelationFacts>
    var relations: Relations
    var changes: seq<Entry>

    ghost function Tables(): Tables
      reads this
    {
      Ingestion.Tables(sources, entityRows, entities, relationRows, relations)
    }

    ghost predicate Valid()
      reads this
    {
      Ingestion.Valid(Tables())
    }

    ghost predicate LogFaithful()
      reads this
    {
      Faithful(changes, entities)
    }

    constructor ()
      ensures Valid() && LogFaithful() && Tables() == Ingestion.Tables(map[], map[], map[], map[], map[]) && changes == []
    {
      sources, entityRows, entities, relationRows, relations, changes := map[], map[], map[], map[], map[], [];
    }

    /** The source that an enrollment creates or gives a new mode. */
    method Enroll(source: string, target: string, mode: Mode)
      requires Valid()
      modifies this`sources
      ensures sources == Enrolled(old(sources), source, target, mode)
      ensures source in sources && (sources[source].revoked || sources[source].mode == mode)
      ensures Valid()
    {
      hide Ingestion.Valid;
      SourcesValid(Tables(), Enrolled(sources, source, target, mode));
      if source !in sources {
        sources := sources[source := Source(target, mode, 0, 0, false)];
      } else if !sources[source].revoked {
        sources := sources[source := sources[source].(mode := mode)];
      }
    }

    /** The upsert of a repository's or a cloud environment's source. */
    method Revive(source: string, target: string)
      requires Valid()
      modifies this`sources
      ensures sources == Revived(old(sources), source, target)
      ensures source in sources && !sources[source].revoked && sources[source].target == target
      ensures source in old(sources) ==>
                sources[source].lastSequence == old(sources)[source].lastSequence && sources[source].lastFullSequence == old(sources)[source].lastFullSequence
      ensures Valid()
    {
      hide Ingestion.Valid;
      SourcesValid(Tables(), Revived(sources, source, target));
      if source !in sources {
        sources := sources[source := Source(target, Continuous, 0, 0, false)];
      } else {
        sources := sources[source := sources[source].(target := target, revoked := false)];
      }
    }

    // ----- One entity -----

    /** The statements of upsertEntity on entities and source_entities. */
    method StoreEntity(s: Snapshot, r: Report<EntityFacts>, sequence: nat) returns (previous: Option<Summary<EntityAggregate>>)
      modifies this`entityRows, this`entities
      ensures previous == if r.id in old(entities) then Some(old(entities)[r.id]) else None
      ensures entityRows == old(entityRows)[(s.source, r.id) := Seen(Observe(s, r), sequence)]
      ensures AggregateEntity(Current(entityRows, r.id)).Some?
      ensures entities == old(entities)[r.id := Summary(AggregateEntity(Current(entityRows, r.id)).value, true, false)]
    {
      hide AggregateEntity, Fresh;
      previous := if r.id in entities then Some(entities[r.id]) else None;
      if previous.None? {
        var own := EntityAggregate(r.facts.name, r.facts.kind, r.facts.canonicalKey, r.attributes, r.confidence, r.facts.provenance, map[]);
        entities := entities[r.id := Summary(own, true, false)];
      }
      entityRows := entityRows[(s.source, r.id) := Seen(Observe(s, r), sequence)];
      SeenFresh(old(entityRows), s.source, Seen(Observe(s, r), sequence), r.id);
      var aggregated := AggregateEntityObservations(Current(entityRows, r.id));
      EntityAggregates(Current(entityRows, r.id));
      entities := entities[r.id := Summary(aggregated.value, true, false)];
    }

    method UpsertEntity(s: Snapshot, r: Report<EntityFacts>, sequence: nat) returns (entry: Option<Entry>, scope: bool)
      modifies this`entityRows, this`entities
      ensures entityRows == old(entityRows)[(s.source, r.id) := Seen(Observe(s, r), sequence)]
      ensures AggregateEntity(Current(entityRows, r.id)).Some?
      ensures entities == old(entities)[r.id := Summary(AggregateEntity(Current(entityRows, r.id)).value, true, false)]
      ensures Tells(entry, scope, r.id, old(entities), entities)
    {
      hide AggregateEntity;
      var previous := StoreEntity(s, r, sequence);
      entry, scope := EntityEvent(r.id, previous, entities[r.id].value);
    }

    // ----- One relationship -----

    /** The statements of upsertRelationship on relationships and source_relationships. */
    method StoreRelation(s: Snapshot, r: Report<RelationFacts>, sequence: nat) returns (previous: Option<Summary<RelationAggregate>>)
      modifies this`relationRows, this`relations
      ensures previous == if r.id in old(relations) then Some(old(relations)[r.id]) else None
      ensures relationRows == old(relationRows)[(s.source, r.id) := Seen(Observe(s, r), sequence)]
      ensures AggregateRelation(Current(relationRows, r.id)).Some?
      ensures relations == old(relations)[r.id := Summary(AggregateRelation(Current(relationRows, r.id)).value, true, false)]
    {
      hide AggregateRelation, Fresh;
      previous := if r.id in relations then Some(relations[r.id]) else None;
      if previous.None? {
        var own := RelationAggregate(r.facts.kind, r.facts.from, r.facts.to, r.attributes, r.confidence, [], []);
        relations := relations[r.id := Summary(own, true, false)];
      }
      relationRows := relationRows[(s.source, r.id) := Seen(Observe(s, r), sequence)];
      SeenFresh(old(relationRows), s.source, Seen(Observe(s, r), sequence), r.id);
      var aggregated := AggregateRelationshipObservations(Current(relationRows, r.id));
      RelationAggregates(Current(relationRows, r.id));
      relations := relations[r.id := Summary(aggregated.value, true, false)];
    }

    method UpsertRelationship(s: Snapshot, r: Report<RelationFacts>, sequence: nat) returns (entry: Option<Entry>)
      modifies this`relationRows, this`relations
      ensures relationRows == old(relationRows)[(s.source, r.id) := Seen(Observe(s, r), sequence)]
      ensures AggregateRelation(Current(relationRows, r.id)).Some?
      ensures relations == old(relations)[r.id := Summary(AggregateRelation(Current(relationRows, r.id)).value, true, false)]
      ensures entry.Some? ==> entry.value == Entry(Updated, r.facts.from, [])
      ensures entry.None? <==>
                r.id in old(relations) && old(relations)[r.id].current && !old(relations)[r.id].stale
                && var was, now := old(relations)[r.id].value, relations[r.id].value;
                   && was.kind == now.kind && was.from == now.from && was.to == now.to
                   && was.attributes == now.attributes && was.confidence == now.confidence
    {
      hide AggregateRelation, Seen, Observe, Current;
      var previous := StoreRelation(s, r, sequence);
      if previous.Some? && previous.value.current && !previous.value.stale && SameMaterial(previous.value.value, relations[r.id].value) {
        return None;
      }
      entry := Some(Entry(Updated, r.facts.from, []));
    }

    // ----- Passing a network change on -----

    /** recordConnectedSystemChanges; `systems` are the current root systems of the
        posture table. */
    method RecordConnectedChanges(changed: string, systems: set<string>, fields: seq<Field>) returns (roots: seq<string>)
      modifies this`changes
      ensures Members(roots) == Neighbours(relations, changed, systems) && |roots| == |Members(roots)|
      ensures changes == old(changes) + Notices(roots, fields)
    {
      roots := Enumerate(Neighbours(relations, changed, systems));
      assert roots[..0] == [] && changes + [] == changes;
      for i := 0 to |roots|
        invariant changes == old(changes) + Notices(roots[..i], fields)
      {
        assert roots[..i + 1][..i] == roots[..i];
        changes := changes + [Entry(Updated, roots[i], fields)];
      }
      assert roots[..|roots|] == roots;
    }

    // ----- A whole snapshot -----

    /** One turn of the entity loop of normalizeSnapshot. */
    method IngestEntity(s: Snapshot, r: Report<EntityFacts>, sequence: nat, systems: set<string>) returns (discovered: bool)
      modifies this`entityRows, this`entities, this`changes
      ensures entityRows == old(entityRows)[(s.source, r.id) := Seen(Observe(s, r), sequence)]
      ensures AggregateEntity(Current(entityRows, r.id)).Some?
      ensures entities == old(entities)[r.id := Summary(AggregateEntity(Current(entityRows, r.id)).value, true, false)]
      ensures discovered <==> r.id !in old(entities)
      ensures old(LogFaithful()) ==> LogFaithful()
      ensures EntityLogged(old(changes), changes, relations, systems, r.id, old(entities), entities)
    {
      hide AggregateEntity, Reaches, Tells, Neighbours, EntityLogged, Faithful, Notices;
      var entry, scope := UpsertEntity(s, r, sequence);
      TellsKind(entry, scope, r.id, old(entities), entities);
      ghost var noted: seq<string> := [];
      discovered := entry.Some? && entry.value.kind == Discovered;
      if Faithful(changes, old(entities)) { ToldFaithful(changes, entry, scope, r.id, old(entities), entities); }
      if entry.Some? {
        changes := changes + [entry.value];
        if scope {
          var roots := RecordConnectedChanges(r.id, systems, entry.value.fields);
          noted := roots;
          if old(LogFaithful()) { NoticesNeutral(old(changes) + [entry.value], roots, entry.value.fields, entities); }
        }
      }
      TurnLogged(old(changes), changes, relations, systems, r.id, old(entities), entities, entry, scope, noted);
    }

    method IngestEntities(s: Snapshot, sequence: nat, systems: set<string>) returns (discovered: set<string>, ghost logs: seq<seq<Entry>>)
      requires Consistent(entityRows, entities, AggregateEntity)
      modifies this`entityRows, this`entities, this`changes
      ensures entityRows == SeeAll(old(entityRows), s, sequence, s.entities)
      ensures entities == Project(old(entities), entityRows, Ids(s.entities), AggregateEntity)
      ensures old(LogFaithful()) ==> LogFaithful()
      ensures discovered == Ids(s.entities) - old(entities).Keys
      ensures EntitiesLogged(old(entityRows), old(entities), relations, s, sequence, systems, |s.entities|, logs, old(changes), changes)
    {
      hide AggregateEntity, Consistent, Project, Faithful, EntityLogged, EntityTurn, EntitiesLogged, SeeAll, Ids;
      ghost var was, start := entityRows, entities;
      discovered, logs := {}, [changes];
      ProjectIdle(entities, entityRows, AggregateEntity);
      NothingSeen(entityRows, s, sequence, s.entities);
      NothingLogged(was, start, relations, s, sequence, systems, changes);
      for i := 0 to |s.entities|
        invariant entityRows == SeeAll(was, s, sequence, s.entities[..i])
        invariant entities == Project(start, entityRows, Ids(s.entities[..i]), AggregateEntity)
        invariant entities.Keys == start.Keys + Ids(s.entities[..i]) && discovered == Ids(s.entities[..i]) - start.Keys
        invariant EntitiesLogged(was, start, relations, s, sequence, systems, i, logs, old(changes), changes)
        invariant old(LogFaithful()) ==> LogFaithful()
      {
        var r := s.entities[i];
        ghost var rows, before, log := entityRows, entities, changes;
        var isNew := IngestEntity(s, r, sequence, systems);
        if isNew {
          discovered := discovered + {r.id};
        }
        EntityProjected(start, rows, entityRows, s.source, Seen(Observe(s, r), sequence), r.id, Ids(s.entities[..i]));
        SeeNext(was, s, sequence, s.entities, i);
        IdsAppend(s.entities, i);
        TurnIs(was, start, relations, s, sequence, systems, i, log, changes, before, entities);
        LoggedNext(was, start, relations, s, sequence, systems, i, logs, old(changes), log, changes);
        logs := logs + [changes];
      }
      assert s.entities[..|s.entities|] == s.entities;
    }

    /** One turn of the relationship loop: the change is logged for the relationship's
        origin unless that was discovered by the same snapshot. */
    method IngestRelationship(s: Snapshot, r: Report<RelationFacts>, sequence: nat, discovered: set<string>)
      modifies this`relationRows, this`relations, this`changes
      ensures relationRows == old(relationRows)[(s.source, r.id) := Seen(Observe(s, r), sequence)]
      ensures AggregateRelation(Current(relationRows, r.id)).Some?
      ensures relations == old(relations)[r.id := Summary(AggregateRelation(Current(relationRows, r.id)).value, true, false)]
      ensures old(LogFaithful()) ==> LogFaithful()
      ensures changes == old(changes) + RelationNote(r, discovered, old(relations), relations)
      ensures var same := r.id in old(relations) && old(relations)[r.id].current && !old(relations)[r.id].stale
                          && var was, now := old(relations)[r.id].value, relations[r.id].value;
                             && was.kind == now.kind && was.from == now.from && was.to == now.to
                             && was.attributes == now.attributes && was.confidence == now.confidence;
        changes == if same || r.facts.from in discovered then old(changes) else old(changes) + [Entry(Updated, r.facts.from, [])]
    {
      hide AggregateRelation;
      assert old(changes) + [] == old(changes);
      var entry := UpsertRelationship(s, r, sequence);
      if entry.Some? && r.facts.from !in discovered {
        if LogFaithful() { ReplayNeutral(changes, entry.value, entities); }
        changes := changes + [entry.value];
      }
    }

    method IngestRelationships(s: Snapshot, sequence: nat, discovered: set<string>)
      requires Consistent(relationRows, relations, AggregateRelation)
      modifies this`relationRows, this`relations, this`changes
      ensures relationRows == SeeAll(old(relationRows), s, sequence, Completed(s))
      ensures relations == Project(old(relations), relationRows, Ids(Completed(s)), AggregateRelation)
      ensures old(LogFaithful()) ==> LogFaithful()
      ensures changes == old(changes) + RelationNotes(old(relationRows), old(relations), s, sequence, discovered, |s.relationships|)
    {
      hide AggregateRelation, Consistent, Project, Faithful, RelationNote, RelationNotes;
      ghost var was, start := relationRows, relations;
      ghost var reports := Completed(s);
      ProjectIdle(relations, relationRows, AggregateRelation);
      assert Ids(reports[..0]) == {};
      NoNotes(was, start, s, sequence, discovered, changes);
      for i := 0 to |s.relationships|
        invariant relationRows == SeeAll(was, s, sequence, reports[..i])
        invariant relations == Project(start, relationRows, Ids(reports[..i]), AggregateRelation)
        invariant changes == old(changes) + RelationNotes(was, start, s, sequence, discovered, i)
        invariant old(LogFaithful()) ==> LogFaithful()
      {
        var r := s.relationships[i].(facts := WithDefaults(s, s.relationships[i].facts));
        ghost var rows, before, log := relationRows, relations, changes;
        IngestRelationship(s, r, sequence, discovered);
        RelationProjected(start, rows, relationRows, s.source, Seen(Observe(s, r), sequence), r.id, Ids(reports[..i]));
        assert reports[..i + 1][..i] == reports[..i];
        IdsAppend(reports, i);
        SameNote(s, s.relationships[i], r, discovered, before, relations);
        RelationTurnIs(was, start, s, sequence, discovered, i, old(changes), log, before, relations);
      }
      assert reports[..|s.relationships|] == reports;
    }

    // ----- Ageing -----

    method RecomputeEntity(id: string) returns (current: bool)
      requires id in entities
      modifies this`entities
      ensures entities == old(entities)[id := Recomputed(old(entities), entityRows, id, AggregateEntity)]
      ensures current == entities[id].current
    {
      hide AggregateEntity;
      var aggregated := AggregateEntityObservations(Current(entityRows, id));
      current := aggregated.Some?;
      if current {
        entities := entities[id := Summary(aggregated.value, true, !Fresh(entityRows, id))];
      } else {
        entities := entities[id := entities[id].(current := false, stale := true)];
      }
    }

    method RecomputeRelation(id: string) returns (current: bool)
      requires id in relations
      modifies this`relations
      ensures relations == old(relations)[id := Recomputed(old(relations), relationRows, id, AggregateRelation)]
      ensures current == relations[id].current
    {
      hide AggregateRelation;
      var aggregated := AggregateRelationshipObservations(Current(relationRows, id));
      current := aggregated.Some?;
      if current {
        relations := relations[id := Summary(aggregated.value, true, !Fresh(relationRows, id))];
      } else {
        relations := relations[id := relations[id].(current := false, stale := true)];
      }
    }

    /** One turn of the entity loop of applyFullMisses. */
    method RepairEntity(id: string)
      requires id in entities
      modifies this`entities, this`changes
      ensures entities == old(entities)[id := Recomputed(old(entities), entityRows, id, AggregateEntity)]
      ensures changes == AgeLog(old(changes), id, old(entities)[id], entities[id])
      ensures var was, now := old(entities)[id], entities[id];
        && (was.current && !was.stale && now.current && now.stale ==> changes == old(changes) + [Entry(BecameStale, id, [])])
        && (was.current && !now.current ==> changes == old(changes) + [Entry(Removed, id, [])])
        && (!was.current || (now.current && (was.stale || !now.stale)) ==> changes == old(changes))
    {
      var was := entities[id];
      var isCurrent := RecomputeEntity(id);
      if was.current && !was.stale && isCurrent && entities[id].stale {
        changes := changes + [Entry(BecameStale, id, [])];
      } else if was.current && !isCurrent {
        changes := changes + [Entry(Removed, id, [])];
      }
    }

    /** The entity half of applyFullMisses: first all rows are aged, then the entities
        are repaired one at a time. */
    method AgeEntities(source: string, sequence: nat) returns (ghost ids: seq<string>)
      requires TableValid(entityRows, entities, sources, AggregateEntity)
      modifies this`entityRows, this`entities, this`changes
      ensures entityRows == Age(old(entityRows), source, sequence)
      ensures entities == Project(old(entities), entityRows, {}, AggregateEntity)
      ensures old(LogFaithful()) ==> LogFaithful()
      ensures AgedTo(old(changes), changes, ids, MissedIds(old(entityRows), source, sequence), old(entities), entities)
    {
      hide AggregateEntity, Faithful, Consistent, Project, Repaired, Recomputed, Age, MissedIds, AgeLog, AgedTo;
      ghost var start, rows := entities, entityRows;
      var missed := MissedIds(entityRows, source, sequence);
      MissedKnown(rows, start, source, sequence, AggregateEntity);
      entityRows := Age(entityRows, source, sequence);
      var rest := missed;
      RepairedNone(start, entityRows, AggregateEntity);
      assert missed - rest == {};
      ids := [];
      ghost var goal := Repaired(start, entityRows, missed, AggregateEntity);
      AgedNone(changes, start, goal);
      while rest != {}
        invariant rest <= missed && entityRows == Age(rows, source, sequence)
        invariant entities == Repaired(start, entityRows, missed - rest, AggregateEntity)
        invariant AgedTo(old(changes), changes, ids, missed - rest, start, goal)
        invariant old(LogFaithful()) ==> LogFaithful()
      {
        var id :| id in rest;
        RepairedStep(start, entityRows, missed - rest, id, AggregateEntity);
        ghost var before, log := entities, changes;
        RepairEntity(id);
        EntityAged(rows, sources, start, source, sequence, id);
        if Faithful(log, before) { AgedTold(log, before, id, entities[id]); }
        assert missed - (rest - {id}) == (missed - rest) + {id};
        RepairedAt(start, entityRows, missed, id, AggregateEntity);
        AgedOneMore(old(changes), log, changes, ids, missed - rest, start, goal, id);
        ids := ids + [id];
        rest := rest - {id};
      }
      assert missed - {} == missed;
      AgedRepaired(rows, start, source, sequence, missed, AggregateEntity);
    }

    /** One turn of the relationship loop of applyFullMisses. */
    method RepairRelation(id: string)
      requires id in relations
      modifies this`relations, this`changes
      ensures relations == old(relations)[id := Recomputed(old(relations), relationRows, id, AggregateRelation)]
      ensures changes == old(changes) + if old(relations)[id].current && !relations[id].current
                                        then [Entry(Updated, old(relations)[id].value.from, [])] else []
    {
      var was := relations[id];
      var isCurrent := RecomputeRelation(id);
      if was.current && !isCurrent {
        changes := changes + [Entry(Updated, was.value.from, [])];
      }
    }

    /** The relationship half of applyFullMisses. */
    method AgeRelations(source: string, sequence: nat) returns (ghost ids: seq<string>)
      requires TableValid(relationRows, relations, sources, AggregateRelation)
      modifies this`relationRows, this`relations, this`changes
      ensures relationRows == Age(old(relationRows), source, sequence)
      ensures relations == Project(old(relations), relationRows, {}, AggregateRelation)
      ensures old(LogFaithful()) ==> LogFaithful()
      ensures LostTo(old(changes), changes, ids, MissedIds(old(relationRows), source, sequence), old(relations), relations)
    {
      hide AggregateRelation, Faithful, Consistent, Project, Repaired, Recomputed, Age, MissedIds, LostTo;
      ghost var start, rows := relations, relationRows;
      var missed := MissedIds(relationRows, source, sequence);
      MissedKnown(rows, start, source, sequence, AggregateRelation);
      relationRows := Age(relationRows, source, sequence);
      var rest := missed;
      RepairedNone(start, relationRows, AggregateRelation);
      assert missed - rest == {};
      ids := [];
      ghost var goal := Repaired(start, relationRows, missed, AggregateRelation);
      LostNone(changes, start, goal);
      while rest != {}
        invariant rest <= missed && relationRows == Age(rows, source, sequence)
        invariant relations == Repaired(start, relationRows, missed - rest, AggregateRelation)
        invariant LostTo(old(changes), changes, ids, missed - rest, start, goal)
        invariant old(LogFaithful()) ==> LogFaithful()
      {
        var id :| id in rest;
        RepairedStep(start, relationRows, missed - rest, id, AggregateRelation);
        ghost var from, log := relations[id].value.from, changes;
        RepairRelation(id);
        assert log + [] == log;
        if Faithful(log, entities) { ReplayNeutral(log, Entry(Updated, from, []), entities); }
        assert missed - (rest - {id}) == (missed - rest) + {id};
        RepairedAt(start, relationRows, missed, id, AggregateRelation);
        LostOneMore(old(changes), log, changes, ids, missed - rest, start, goal, id);
        ids := ids + [id];
        rest := rest - {id};
      }
      assert missed - {} == missed;
      AgedRepaired(rows, start, source, sequence, missed, AggregateRelation);
    }

    /** normalizeSnapshot: one accepted snapshot does what Ingest says; a rejected or
        repeated one does nothing. */
    method Normalize(s: Snapshot, systems: set<string>) returns (outcome: Outcome)
      requires Valid()
      modifies this
      ensures Valid() && outcome == Admit(old(sources), s) && Answers(old(sources), s, outcome)
      ensures Tables() == Ingest(old(Tables()), s)
      ensures outcome == Applied ==> Stores(old(Tables()), s, Tables()) && Advances(old(sources), s, sources)
      ensures old(LogFaithful()) ==> LogFaithful()
      ensures if outcome == Applied then SnapshotLogged(old(Tables()), s, systems, old(changes), Tables(), changes) else changes == old(changes)
    {
      hide AggregateEntity, AggregateRelation, Faithful, Consistent, Project, RowInvariant, SeeAll, Age, Stores, Answers, Advances;
      hide EntitiesLogged, RelationNotes, AgedTo, LostTo, MissedIds, SnapshotLogged;
      ghost var before := Tables();
      outcome := Admit(sources, s);
      AdmitAnswers(sources, s);
      if outcome != Applied {
        return;
      }
      IngestStores(before, s);
      IngestAdvances(before, s);
      var sequence := NextSequence(sources[s.source], s);
      SnapshotConsistent(before, s);
      sources := sources[s.source := Advance(sources[s.source], s)];
      var discovered, logs := IngestEntities(s, sequence, systems);
      ghost var seen := changes;
      IngestRelationships(s, sequence, discovered);
      ghost var told, mid := changes, changes;
      ghost var aged: seq<string>, lost: seq<string> := [], [];
      if s.full {
        aged := AgeEntities(s.source, sequence);
        mid := changes;
        lost := AgeRelations(s.source, sequence);
      }
      IngestValid(before, s);
      NotedWhole(before, s, systems, old(changes), logs, seen, told, aged, mid, lost, Tables(), changes);
    }

    // ----- Retiring sources -----

    /** Withdraws the entity rows of some sources and recomputes the entities they
        currently showed; removeGitHubSource also logs those that are gone. */
    method RetireEntities(gone: set<string>, setMisses: bool, logRemoved: bool) returns (removed: seq<string>)
      requires TableValid(entityRows, entities, sources, AggregateEntity)
      modifies this`entityRows, this`entities, this`changes
      ensures entityRows == Withdraw(old(entityRows), gone, setMisses)
      ensures entities == Project(old(entities), entityRows, {}, AggregateEntity)
      ensures changes == old(changes) + if logRemoved then Removals(removed) else []
      ensures forall id :: id in removed <==> id in ShownBy(old(entityRows), gone) && id in entities && !entities[id].current
    {
      hide AggregateEntity, Consistent, Project, Repaired, Recomputed, Withdraw, ShownBy;
      ghost var start, rows := entities, entityRows;
      var shown := ShownBy(entityRows, gone);
      ShownKnown(rows, start, gone, AggregateEntity);
      entityRows := Withdraw(entityRows, gone, setMisses);
      removed := [];
      var rest := shown;
      RepairedNone(start, entityRows, AggregateEntity);
      assert shown - rest == {};
      while rest != {}
        invariant rest <= shown && entityRows == Withdraw(rows, gone, setMisses)
        invariant entities == Repaired(start, entityRows, shown - rest, AggregateEntity)
        invariant changes == old(changes) + if logRemoved then Removals(removed) else []
        invariant forall id :: id in removed <==> id in shown - rest && id in entities && !entities[id].current
      {
        var id :| id in rest;
        RepairedStep(start, entityRows, shown - rest, id, AggregateEntity);
        var current := RecomputeEntity(id);
        if !current {
          assert (removed + [id])[..|removed|] == removed;
          removed := removed + [id];
          if logRemoved {
            changes := changes + [Entry(Removed, id, [])];
          }
        }
        assert shown - (rest - {id}) == (shown - rest) + {id};
        rest := rest - {id};
      }
      assert shown - {} == shown;
      RepairedKeys(start, entityRows, shown, AggregateEntity);
      WithdrawnRepaired(rows, start, gone, setMisses, AggregateEntity);
    }

    method RetireRelations(gone: set<string>, setMisses: bool)
      requires TableValid(relationRows, relations, sources, AggregateRelation)
      modifies this`relationRows, this`relations
      ensures relationRows == Withdraw(old(relationRows), gone, setMisses)
      ensures relations == Project(old(relations), relationRows, {}, AggregateRelation)
    {
      hide AggregateRelation, Consistent, Project, Repaired, Recomputed, Withdraw, ShownBy;
      ghost var start, rows := relations, relationRows;
      var shown := ShownBy(relationRows, gone);
      ShownKnown(rows, start, gone, AggregateRelation);
      relationRows := Withdraw(relationRows, gone, setMisses);
      var rest := shown;
      RepairedNone(start, relationRows, AggregateRelation);
      assert shown - rest == {};
      while rest != {}
        invariant rest <= shown && relationRows == Withdraw(rows, gone, setMisses)
        invariant relations == Repaired(start, relationRows, shown - rest, AggregateRelation)
      {
        var id :| id in rest;
        RepairedStep(start, relationRows, shown - rest, id, AggregateRelation);
        var _ := RecomputeRelation(id);
        assert shown - (rest - {id}) == (shown - rest) + {id};
        rest := rest - {id};
      }
      assert shown - {} == shown;
      WithdrawnRepaired(rows, start, gone, setMisses, AggregateRelation);
    }

    /** revokeSource: an administrator revokes an active source. */
    method RevokeSource(source: string) returns (found: bool)
      requires Valid()
      modifies this
      ensures found <==> source in old(sources) && !old(sources)[source].revoked
      ensures Tables() == if found then Retire(old(Tables()), {source}, false) else old(Tables())
      ensures found ==> Retired(old(Tables()), {source}, false, Tables())
      ensures Valid() && changes == old(changes)
    {
      hide AggregateEntity, AggregateRelation, Consistent, Project, RowInvariant, Withdraw, Retired;
      RetireWithdraws(Tables(), {source}, false);
      found := source in sources && !sources[source].revoked;
      if found {
        RetireValid(Tables(), {source}, false);
        var _ := RetireEntities({source}, false, false);
        RetireRelations({source}, false);
        RevokedOne(sources, source);
        sources := sources[source := sources[source].(revoked := true)];
      }
    }

    /** The retirement in disconnectEnvironment: retireSourceObservations, then the
        source is revoked, whether it was active or not. */
    method RetireSource(source: string)
      requires Valid() && source in sources
      modifies this
      ensures Tables() == Retire(old(Tables()), {source}, false) && Retired(old(Tables()), {source}, false, Tables())
      ensures Valid() && changes == old(changes)
    {
      hide AggregateEntity, AggregateRelation, Consistent, Project, RowInvariant, Withdraw, Retired;
      RetireWithdraws(Tables(), {source}, false);
      RetireValid(Tables(), {source}, false);
      var _ := RetireEntities({source}, false, false);
      RetireRelations({source}, false);
      RevokedOne(sources, source);
      sources := sources[source := sources[source].(revoked := true)];
    }

    /** removeGitHubSource: the counter is set to three and every entity that is gone
        is logged. */
    method RemoveGitHubSource(source: string) returns (removed: seq<string>)
      requires Valid() && source in sources
      modifies this
      ensures Tables() == Retire(old(Tables()), {source}, true) && Valid() && Retired(old(Tables()), {source}, true, Tables())
      ensures changes == old(changes) + Removals(removed)
      ensures forall id :: id in removed <==>
                             && (source, id) in old(entityRows) && old(entityRows)[(source, id)].current
                             && id in entities && !entities[id].current
    {
      hide AggregateEntity, AggregateRelation, Consistent, Project, RowInvariant, Withdraw, ShownBy, Retired;
      RetireWithdraws(Tables(), {source}, true);
      RetireValid(Tables(), {source}, true);
      removed := RetireEntities({source}, true, true);
      forall id ensures id in ShownBy(old(entityRows), {source}) <==> (source, id) in old(entityRows) && old(entityRows)[(source, id)].current {
        ShownByOne(old(entityRows), source, id);
      }
      RetireRelations({source}, true);
      RevokedOne(sources, source);
      sources := sources[source := sources[source].(revoked := true)];
    }

    /** The observations of revokeFleetDevice: every active source of the target is
        retired at once. */
    method RevokeDevice(target: string)
      requires Valid()
      modifies this
      ensures Tables() == Retire(old(Tables()), ActiveSources(old(sources), target), false)
      ensures Retired(old(Tables()), set s | s in old(sources) && old(sources)[s].target == target && !old(sources)[s].revoked, false, Tables())
      ensures Valid() && changes == old(changes)
      ensures forall s :: s in sources && sources[s].target == target ==> sources[s].revoked
    {
      hide AggregateEntity, AggregateRelation, Consistent, Project, RowInvariant, Withdraw, Retired;
      var gone := ActiveSources(sources, target);
      RetireWithdraws(Tables(), gone, false);
      RetireValid(Tables(), gone, false);
      var _ := RetireEntities(gone, false, false);
      RetireRelations(gone, false);
      sources := map s | s in sources :: if sources[s].target == target then sources[s].(revoked := true) else sources[s];
    }
  }

  lemma EntityAggregates(obs: Observed<EntityFacts>)
    ensures AggregateEntity(obs).Some? <==> obs != map[]
  {
  }

  lemma RelationAggregates(obs: Observed<RelationFacts>)
    ensures AggregateRelation(obs).Some? <==> obs != map[]
  {
  }

  /** The two digests of upsertRelationship agree: everything but the provenance lists. */
  predicate SameMaterial(a: RelationAggregate, b: RelationAggregate) {
    a.kind == b.kind && a.from == b.from && a.to == b.to && a.attributes == b.attributes && a.confidence == b.confidence
  }

  /** The log entry of an upsert: "discovered" for a new entity; otherwise "updated" when
      anything changed, with a "current" field when the entity was not current and fresh;
      and whether the change is passed on to connected systems. */
  ghost predicate Tells(entry: Option<Entry>, scope: bool, id: string, before: Entities, after: Entities) {
    && (entry.Some? ==> entry.value.entity == id && entry.value.kind in {Discovered, Updated})
    && (entry.Some? && entry.value.kind == Discovered <==> id !in before)
    && (id in before && id in after ==>
          var p, n := before[id], after[id];
          && (entry.None? <==> && p.current && !p.stale && p.value.name == n.value.name
                               && p.value.confidence == n.value.confidence && p.value.attributes == n.value.attributes)
          && (entry.Some? ==> ReportsAll(Comparable(p.value), p.current, p.stale, Comparable(n.value), entry.value.fields))
          && (entry.Some? ==> ((exists f :: f in entry.value.fields && f.CurrentField?) <==> !p.current || p.stale)))
    && (scope ==> entry.Some? && entry.value.kind == Updated && forall f :: f in entry.value.fields ==> !f.CurrentField?)
    && (scope <==> id in before && id in after && Reaches(before[id], after[id].value))
  }

  /** A change that connected systems are told of: the entity was current and fresh, its
      discovery state is the same, and the greatest telling key is one of the network. */
  ghost predicate Reaches(was: Summary<EntityAggregate>, next: EntityAggregate) {
    && was.current && !was.stale && DiscoveryState(was.value.attributes) == DiscoveryState(next.attributes)
    && exists key :: Decides(was.value.attributes, next.attributes, key) && NetworkAttribute(key)
  }

  function Comparable(a: EntityAggregate): Record {
    Record(a.name, a.confidence, a.attributes)
  }

  /** The tail of upsertEntity: what to log. */
  method EntityEvent(id: string, previous: Option<Summary<EntityAggregate>>, next: EntityAggregate) returns (entry: Option<Entry>, scope: bool)
    ensures Tells(entry, scope, id, if previous.Some? then map[id := previous.value] else map[], map[id := Summary(next, true, false)])
  {
    hide EntityChange, ReportsAll, Categorized, Reaches;
    if previous.None? {
      return Some(Entry(Discovered, id, [])), false;
    }
    var p := previous.value;
    var change := ComputeChange(Comparable(p.value), p.current, p.stale, Comparable(next));
    if change.None? {
      NothingReaches(p, next);
      return None, false;
    }
    CurrentFieldIff(Comparable(p.value), p.current, p.stale, Comparable(next));
    entry := Some(Entry(Updated, id, change.value.fields));
    scope := change.value.category == NetworkScope;
    CategoryReaches(p, next, change.value.category);
  }

  lemma NothingReaches(was: Summary<EntityAggregate>, next: EntityAggregate)
    requires was.value.attributes == next.attributes
    ensures !Reaches(was, next)
  {
  }

  lemma CategoryReaches(was: Summary<EntityAggregate>, next: EntityAggregate, c: Category)
    requires Categorized(Comparable(was.value), was.current, was.stale, Comparable(next), c)
    ensures c == NetworkScope <==> Reaches(was, next)
  {
    hide DiscoveryState, Decides, NetworkAttribute, PostureAttribute;
  }

  lemma TurnLogged(log: seq<Entry>, next: seq<Entry>, relations: Relations, systems: set<string>, id: string,
                   before: Entities, after: Entities, entry: Option<Entry>, scope: bool, roots: seq<string>)
    requires Tells(entry, scope, id, before, after) && (scope ==> entry.Some?)
    requires scope ==> Members(roots) == Neighbours(relations, id, systems) && |roots| == |Members(roots)|
    requires next == if entry.None? then log else if scope then log + [entry.value] + Notices(roots, entry.value.fields) else log + [entry.value]
    ensures EntityLogged(log, next, relations, systems, id, before, after)
  {
    hide Tells, Neighbours, Notices;
    assert scope ==> log + [entry.value] + Notices(roots, entry.value.fields) == log + ([entry.value] + Notices(roots, entry.value.fields));
    assert log + [] == log;
    assert EntityNoted(log, next, relations, systems, id, before, after, entry, scope, roots);
  }

  lemma TellsKind(entry: Option<Entry>, scope: bool, id: string, before: Entities, after: Entities)
    requires Tells(entry, scope, id, before, after)
    ensures entry.Some? && entry.value.kind == Discovered <==> id !in before
    ensures scope ==> entry.Some? && entry.value.kind == Updated && forall f :: f in entry.value.fields ==> !f.CurrentField?
  {
  }

  lemma TurnIs(rows: Rows<EntityFacts>, start: Entities, relations: Relations, s: Snapshot, sequence: nat, systems: set<string>, i: nat,
               log: seq<Entry>, next: seq<Entry>, before: Entities, after: Entities)
    requires i < |s.entities| && EntityLogged(log, next, relations, systems, s.entities[i].id, before, after)
    requires before == Project(start, SeeAll(rows, s, sequence, s.entities[..i]), Ids(s.entities[..i]), AggregateEntity)
    requires after == Project(start, SeeAll(rows, s, sequence, s.entities[..i + 1]), Ids(s.entities[..i + 1]), AggregateEntity)
    ensures EntityTurn(rows, start, relations, s, sequence, systems, i, log, next)
  {
    hide AggregateEntity, Project, SeeAll, Ids, EntityLogged;
  }

  lemma NothingSeen<P>(rows: Rows<P>, s: Snapshot, sequence: nat, reports: seq<Report<P>>)
    ensures SeeAll(rows, s, sequence, reports[..0]) == rows && Ids(reports[..0]) == {}
  {
  }

  lemma SeeNext<P>(rows: Rows<P>, s: Snapshot, sequence: nat, reports: seq<Report<P>>, i: nat)
    requires i < |reports|
    ensures SeeAll(rows, s, sequence, reports[..i + 1]) ==
            SeeAll(rows, s, sequence, reports[..i])[(s.source, reports[i].id) := Seen(Observe(s, reports[i]), sequence)]
  {
    assert reports[..i + 1][..i] == reports[..i];
  }

  lemma NothingLogged(rows: Rows<EntityFacts>, start: Entities, relations: Relations, s: Snapshot, sequence: nat, systems: set<string>, log: seq<Entry>)
    ensures EntitiesLogged(rows, start, relations, s, sequence, systems, 0, [log], log, log)
  {
  }

  lemma LoggedNext(rows: Rows<EntityFacts>, start: Entities, relations: Relations, s: Snapshot, sequence: nat, systems: set<string>,
                   k: nat, logs: seq<seq<Entry>>, log: seq<Entry>, mid: seq<Entry>, next: seq<Entry>)
    requires EntitiesLogged(rows, start, relations, s, sequence, systems, k, logs, log, mid)
    requires EntityTurn(rows, start, relations, s, sequence, systems, k, mid, next)
    ensures EntitiesLogged(rows, start, relations, s, sequence, systems, k + 1, logs + [next], log, next)
  {
    hide EntityTurn;
    var all := logs + [next];
    forall i: nat | i < k + 1
      ensures EntityTurn(rows, start, relations, s, sequence, systems, i, all[i], all[i + 1])
    {
      assert i < k ==> all[i] == logs[i] && all[i + 1] == logs[i + 1];
    }
  }

  lemma NoNotes(rows: Rows<RelationFacts>, start: Relations, s: Snapshot, sequence: nat, discovered: set<string>, log: seq<Entry>)
    ensures log == log + RelationNotes(rows, start, s, sequence, discovered, 0)
  {
  }

  lemma RelationTurnIs(rows: Rows<RelationFacts>, start: Relations, s: Snapshot, sequence: nat, discovered: set<string>, i: nat,
                       log: seq<Entry>, notes: seq<Entry>, before: Relations, after: Relations)
    requires i < |s.relationships| && notes == log + RelationNotes(rows, start, s, sequence, discovered, i)
    requires before == Project(start, SeeAll(rows, s, sequence, Completed(s)[..i]), Ids(Completed(s)[..i]), AggregateRelation)
    requires after == Project(start, SeeAll(rows, s, sequence, Completed(s)[..i + 1]), Ids(Completed(s)[..i + 1]), AggregateRelation)
    ensures notes + RelationNote(s.relationships[i], discovered, before, after) == log + RelationNotes(rows, start, s, sequence, discovered, i + 1)
  {
    hide AggregateRelation, Project, SeeAll, Ids, RelationNote, Completed;
  }

  lemma NotedWhole(t: Tables, s: Snapshot, systems: set<string>, log: seq<Entry>, logs: seq<seq<Entry>>, seen: seq<Entry>, told: seq<Entry>,
                   aged: seq<string>, mid: seq<Entry>, lost: seq<string>, next: Tables, final: seq<Entry>)
    requires s.source in t.sources
    requires var sequence := NextSequence(t.sources[s.source], s);
      var rows, relationRows := SeeAll(t.entityRows, s, sequence, s.entities), SeeAll(t.relationRows, s, sequence, Completed(s));
      && EntitiesLogged(t.entityRows, t.entities, t.relations, s, sequence, systems, |s.entities|, logs, log, seen)
      && told == seen + RelationNotes(t.relationRows, t.relations, s, sequence, Ids(s.entities) - t.entities.Keys, |s.relationships|)
      && if s.full then
           && AgedTo(told, mid, aged, MissedIds(rows, s.source, sequence), Project(t.entities, rows, Ids(s.entities), AggregateEntity), next.entities)
           && LostTo(mid, final, lost, MissedIds(relationRows, s.source, sequence),
                     Project(t.relations, relationRows, Ids(Completed(s)), AggregateRelation), next.relations)
         else final == told
    ensures SnapshotLogged(t, s, systems, log, next, final)
  {
    hide EntitiesLogged, RelationNotes, AgedTo, LostTo, MissedIds, SeeAll, Project, AggregateEntity, AggregateRelation, Ids;
    assert s.entities[..|s.entities|] == s.entities && Completed(s)[..|s.relationships|] == Completed(s);
    assert SnapshotNoted(t, s, systems, log, logs, seen, aged, mid, lost, next, final);
  }

  /** The defaults do not show in the log. */
  lemma SameNote(s: Snapshot, a: Report<RelationFacts>, b: Report<RelationFacts>, discovered: set<string>, before: Relations, after: Relations)
    requires b == a.(facts := WithDefaults(s, a.facts))
    ensures RelationNote(a, discovered, before, after) == RelationNote(b, discovered, before, after)
  {
  }

  /** An upsert's entry keeps the log faithful. */
  lemma ToldFaithful(log: seq<Entry>, entry: Option<Entry>, scope: bool, id: string, before: Entities, after: Entities)
    requires Tells(entry, scope, id, before, after) && Faithful(log, before)
    requires id in after && after == before[id := after[id]] && after[id].current && !after[id].stale
    ensures Faithful(if entry.Some? then log + [entry.value] else log, after)
  {
    if entry.None? {
      assert before[id].current && !before[id].stale;
    } else if entry.value.kind == Discovered || exists f :: f in entry.value.fields && f.CurrentField? {
      ReplayTelling(log, entry.value, before, after[id]);
    } else {
      ReplayNeutral(log, entry.value, before);
    }
  }

  /** The root systems with a current relationship to the changed entity. */
  function Neighbours(relations: Relations, changed: string, systems: set<string>): set<string> {
    set id | id in systems && id != changed && exists r :: r in relations && Links(relations[r], changed, id)
  }

  predicate Links(r: Summary<RelationAggregate>, changed: string, id: string) {
    r.current && (if r.value.from == changed then r.value.to == id else r.value.to == changed && r.value.from == id)
  }

  ghost function Notices(roots: seq<string>, fields: seq<Field>): seq<Entry> {
    if roots == [] then [] else
      Notices(roots[..|roots| - 1], fields) + [Entry(Updated, roots[|roots| - 1], fields)]
  }

  lemma {:induction false} NoticesNeutral(log: seq<Entry>, roots: seq<string>, fields: seq<Field>, entities: Entities)
    requires Faithful(log, entities) && forall f :: f in fields ==> !f.CurrentField?
    ensures Faithful(log + Notices(roots, fields), entities)
  {
    if roots == [] {
      assert log + Notices(roots, fields) == log;
    } else {
      var init := roots[..|roots| - 1];
      var e := Entry(Updated, roots[|roots| - 1], fields);
      NoticesNeutral(log, init, fields, entities);
      ReplayNeutral(log + Notices(init, fields), e, entities);
      assert log + Notices(roots, fields) == (log + Notices(init, fields)) + [e];
    }
  }

  lemma IdsAppend<P>(reports: seq<Report<P>>, i: nat)
    requires i < |reports|
    ensures Ids(reports[..i + 1]) == Ids(reports[..i]) + {reports[i].id}
  {
    var a, b := reports[..i + 1], reports[..i];
    assert forall j :: 0 <= j < i ==> a[j] == b[j];
    assert a[i] == reports[i];
    forall id | id in Ids(b) ensures id in Ids(a) {
      var j :| 0 <= j < i && b[j].id == id;
      assert a[j].id == id;
    }
  }

  lemma EntityProjected(start: Entities, rows: Rows<EntityFacts>, next: Rows<EntityFacts>, source: string, row: Row<EntityFacts>, id: string, added: set<string>)
    requires next == rows[(source, id) := row] && row.current && !row.stale
    ensures AggregateEntity(Current(next, id)).Some?
    ensures Project(start, next, added + {id}, AggregateEntity) ==
            Project(start, rows, added, AggregateEntity)[id := Summary(AggregateEntity(Current(next, id)).value, true, false)]
  {
    hide AggregateEntity;
    SeenFresh(rows, source, row, id);
    EntityAggregates(Current(next, id));
    forall other | other != id ensures Current(next, other) == Current(rows, other) && Fresh(next, other) == Fresh(rows, other) {
      PutView(rows, (source, id), row, other);
    }
    ProjectSeen(start, rows, next, id, added, AggregateEntity);
  }

  lemma RelationProjected(start: Relations, rows: Rows<RelationFacts>, next: Rows<RelationFacts>, source: string, row: Row<RelationFacts>, id: string, added: set<string>)
    requires next == rows[(source, id) := row] && row.current && !row.stale
    ensures AggregateRelation(Current(next, id)).Some?
    ensures Project(start, next, added + {id}, AggregateRelation) ==
            Project(start, rows, added, AggregateRelation)[id := Summary(AggregateRelation(Current(next, id)).value, true, false)]
  {
    hide AggregateRelation;
    SeenFresh(rows, source, row, id);
    RelationAggregates(Current(next, id));
    forall other | other != id ensures Current(next, other) == Current(rows, other) && Fresh(next, other) == Fresh(rows, other) {
      PutView(rows, (source, id), row, other);
    }
    ProjectSeen(start, rows, next, id, added, AggregateRelation);
  }

  // ----- Ageing, seen from one subject -----

  /** The subjects of the rows that the ageing UPDATE returns. */
  function MissedIds<P>(rows: Rows<P>, source: string, sequence: nat): set<string> {
    set key | key in rows && Missed(rows, source, sequence, key) :: key.1
  }

  lemma MissedKnown<P(!new), A(!new)>(rows: Rows<P>, start: Projection<A>, source: string, sequence: nat, aggregate: Observed<P> -> Option<A>)
    requires Consistent(rows, start, aggregate)
    ensures MissedIds(rows, source, sequence) <= start.Keys
  {
  }

  lemma AgedRepaired<P(!new), A(!new)>(rows: Rows<P>, start: Projection<A>, source: string, sequence: nat, missed: set<string>,
                                       aggregate: Observed<P> -> Option<A>)
    requires Consistent(rows, start, aggregate)
    requires missed == MissedIds(rows, source, sequence)
    ensures Repaired(start, Age(rows, source, sequence), missed, aggregate) == Project(start, Age(rows, source, sequence), {}, aggregate)
  {
    forall id | id in start && id !in missed
      ensures Current(Age(rows, source, sequence), id) == Current(rows, id) && Fresh(Age(rows, source, sequence), id) == Fresh(rows, id)
    {
      AgeView(rows, source, sequence, id);
    }
    RepairedAll(start, rows, Age(rows, source, sequence), missed, aggregate);
  }

  /** The log of a repair, from the flags before and after it. */
  function AgeLog<A>(log: seq<Entry>, id: string, was: Summary<A>, now: Summary<A>): seq<Entry> {
    if was.current && !was.stale && now.current && now.stale then log + [Entry(BecameStale, id, [])]
    else if was.current && !now.current then log + [Entry(Removed, id, [])]
    else log
  }

  lemma RowsAged<P>(rows: Rows<P>, sources: map<string, Source>, source: string, sequence: nat, id: string)
    requires RowInvariant(rows, sources)
    requires id in MissedIds(rows, source, sequence)
    ensures Current(rows, id) != map[]
    ensures Fresh(Age(rows, source, sequence), id) ==> Fresh(rows, id)
  {
    var key: Key :| key in rows && Missed(rows, source, sequence, key) && key.1 == id;
    assert key == (key.0, id);
    CurrentSource(rows, id, key.0);
    assert key.0 in Current(rows, id);
    AgeOnlyStales(rows, source, sequence, id);
  }

  /** An entity whose row is aged was current; ageing never makes it fresh again. */
  lemma AgedFlags<P(!new), A(!new)>(rows: Rows<P>, next: Rows<P>, start: Projection<A>, id: string, aggregate: Observed<P> -> Option<A>)
    requires Consistent(rows, start, aggregate) && id in start
    requires aggregate(Current(rows, id)).Some? && (Fresh(next, id) ==> Fresh(rows, id))
    ensures var after := Recomputed(start, next, id, aggregate);
      start[id].current && (start[id].stale ==> after.stale) && (!after.current ==> after.stale)
  {
    assert Agrees(rows, id, start[id], aggregate);
  }

  lemma EntityAged(rows: Rows<EntityFacts>, sources: map<string, Source>, start: Entities, source: string, sequence: nat, id: string)
    requires TableValid(rows, start, sources, AggregateEntity) && id in start
    requires id in MissedIds(rows, source, sequence)
    ensures var after := Recomputed(start, Age(rows, source, sequence), id, AggregateEntity);
      start[id].current && (start[id].stale ==> after.stale) && (!after.current ==> after.stale)
  {
    hide AggregateEntity;
    RowsAged(rows, sources, source, sequence, id);
    EntityAggregates(Current(rows, id));
    AgedFlags(rows, Age(rows, source, sequence), start, id, AggregateEntity);
  }

  /** The entry for the flags before and after a repair keeps the log faithful. */
  lemma AgedTold(log: seq<Entry>, before: Entities, id: string, now: Summary<EntityAggregate>)
    requires Faithful(log, before) && id in before && before[id].current
    requires (before[id].stale ==> now.stale) && (!now.current ==> now.stale)
    ensures Faithful(AgeLog(log, id, before[id], now), before[id := now])
  {
    if !before[id].stale && now.current && now.stale {
      ReplayTelling(log, Entry(BecameStale, id, []), before, now);
    } else if !now.current {
      ReplayTelling(log, Entry(Removed, id, []), before, now);
    }
  }

  // ----- Withdrawal, seen from one subject -----

  /** The subjects that some sources currently show. */
  function ShownBy<P>(rows: Rows<P>, gone: set<string>): set<string> {
    set key | key in rows && key.0 in gone && rows[key].current :: key.1
  }

  function ActiveSources(sources: map<string, Source>, target: string): set<string> {
    set s | s in sources && sources[s].target == target && !sources[s].revoked
  }

  ghost function Removals(ids: seq<string>): seq<Entry> {
    if ids == [] then [] else Removals(ids[..|ids| - 1]) + [Entry(Removed, ids[|ids| - 1], [])]
  }

  lemma ShownByOne<P>(rows: Rows<P>, source: string, id: string)
    ensures id in ShownBy(rows, {source}) <==> (source, id) in rows && rows[(source, id)].current
  {
    if (source, id) in rows && rows[(source, id)].current {
      assert (source, id).1 in ShownBy(rows, {source});
    }
  }

  lemma ShownKnown<P(!new), A(!new)>(rows: Rows<P>, start: Projection<A>, gone: set<string>, aggregate: Observed<P> -> Option<A>)
    requires Consistent(rows, start, aggregate)
    ensures ShownBy(rows, gone) <= start.Keys
  {
  }

  lemma WithdrawnRepaired<P(!new), A(!new)>(rows: Rows<P>, start: Projection<A>, gone: set<string>, setMisses: bool,
                                            aggregate: Observed<P> -> Option<A>)
    requires Consistent(rows, start, aggregate)
    ensures Repaired(start, Withdraw(rows, gone, setMisses), ShownBy(rows, gone), aggregate) ==
            Project(start, Withdraw(rows, gone, setMisses), {}, aggregate)
  {
    forall id | id in start && id !in ShownBy(rows, gone)
      ensures Current(Withdraw(rows, gone, setMisses), id) == Current(rows, id)
      ensures Fresh(Withdraw(rows, gone, setMisses), id) == Fresh(rows, id)
    {
      forall s | s in gone ensures (s, id) !in rows || !rows[(s, id)].current {
        assert (s, id) in rows && rows[(s, id)].current ==> (s, id).1 in ShownBy(rows, gone);
      }
      WithdrawView(rows, gone, setMisses, id);
    }
    RepairedAll(start, rows, Withdraw(rows, gone, setMisses), ShownBy(rows, gone), aggregate);
  }

  lemma RevokedOne(sources: map<string, Source>, source: string)
    requires source in sources
    ensures sources[source := sources[source].(revoked := true)] ==
            map id | id in sources :: if id in {source} then sources[id].(revoked := true) else sources[id]
  {
  }

  /** Before the ageing of a full snapshot both pairs of tables are consistent. */
  lemma SnapshotConsistent(t: Tables, s: Snapshot)
    requires Ingestion.Valid(t) && Admit(t.sources, s) == Applied
    ensures var sequence := NextSequence(t.sources[s.source], s);
      var next := t.sources[s.source := Advance(t.sources[s.source], s)];
      && Consistent(t.entityRows, t.entities, AggregateEntity)
      && Consistent(t.relationRows, t.relations, AggregateRelation)
      && TableValid(SeeAll(t.entityRows, s, sequence, s.entities),
                    Project(t.entities, SeeAll(t.entityRows, s, sequence, s.entities), Ids(s.entities), AggregateEntity), next, AggregateEntity)
      && TableValid(SeeAll(t.relationRows, s, sequence, Completed(s)),
                    Project(t.relations, SeeAll(t.relationRows, s, sequence, Completed(s)), Ids(Completed(s)), AggregateRelation), next, AggregateRelation)
  {
    hide AggregateEntity, AggregateRelation, Project, Agrees, SeeAll, Age;
    var sequence := NextSequence(t.sources[s.source], s);
    Aggregates();
    SeenInvariant(t.entityRows, t.sources, s, s.entities);
    SeenInvariant(t.relationRows, t.sources, s, Completed(s));
    AfterConsistent(t.entities, t.entityRows, s, sequence, s.entities, AggregateEntity);
    AfterConsistent(t.relations, t.relationRows, s, sequence, Completed(s), AggregateRelation);
  }
}
