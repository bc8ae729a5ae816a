/** Presence of subjects (entities or relationships): the per-source observation
    rows with their three-strike counter, and the projection that summarizes the
    current rows of each subject. Both pairs of tables, source_entities/entities and
    source_relationships/relationships, have this shape. */
module Presence {
  import opened Options
  import opened Posture

  datatype Row<P> = Row(observation: Observation<P>, sequence: nat, misses: nat, current: bool, stale: bool)

  /** Primary key: source and subject. */
  type Key = (string, string)

  type Rows<P> = map<Key, Row<P>>

  datatype Summary<+A> = Summary(value: A, current: bool, stale: bool)

  type Projection<A> = map<string, Summary<A>>

  // ----- The statements on observation rows -----

  /** The upsert of an observed subject. */
  function Seen<P>(observation: Observation<P>, sequence: nat): Row<P> {
    Row(observation, sequence, 0, true, false)
  }

  predicate Missed<P>(rows: Rows<P>, source: string, sequence: nat, key: Key) {
    key in rows && key.0 == source && rows[key].current && rows[key].sequence != sequence
  }

  function Struck<P>(row: Row<P>): Row<P> {
    row.(misses := row.misses + 1, stale := row.misses + 1 >= 2, current := row.misses + 1 < 3)
  }

  /** The ageing UPDATE of a full snapshot. */
  function Age<P>(rows: Rows<P>, source: string, sequence: nat): Rows<P> {
    map key | key in rows :: if Missed(rows, source, sequence, key) then Struck(rows[key]) else rows[key]
  }

  /** The UPDATE that withdraws every row of some sources; only the removal of a
      GitHub repository also sets the counter. */
  function Withdraw<P>(rows: Rows<P>, sources: set<string>, setMisses: bool): Rows<P> {
    map key | key in rows ::
      if key.0 !in sources then rows[key]
      else rows[key].(current := false, stale := true, misses := if setMisses then 3 else rows[key].misses)
  }

  // ----- Reading the rows of one subject -----

  function Current<P>(rows: Rows<P>, id: string): Observed<P> {
    map key | key in rows && key.1 == id && rows[key].current :: key.0 := rows[key].observation
  }

  predicate Fresh<P>(rows: Rows<P>, id: string) {
    exists key :: key in rows && key.1 == id && rows[key].current && !rows[key].stale
  }

  /** Changes to rows that are not current before or after do not show. */
  lemma SameView<P>(rows: Rows<P>, next: Rows<P>, id: string)
    requires forall key: Key :: key.1 == id ==>
               && (key in rows && rows[key].current <==> key in next && next[key].current)
               && (key in rows && rows[key].current ==> next[key].observation == rows[key].observation && next[key].stale == rows[key].stale)
    ensures Current(next, id) == Current(rows, id) && Fresh(next, id) == Fresh(rows, id)
  {
    var a, b := Current(rows, id), Current(next, id);
    forall s ensures (s in a <==> s in b) && (s in a ==> a[s] == b[s]) {
      var key: Key := (s, id);
      assert s in a <==> key in rows && rows[key].current;
      assert s in b <==> key in next && next[key].current;
    }
    assert a == b;
    if key :| key in rows && key.1 == id && rows[key].current && !rows[key].stale { assert key in next && !next[key].stale; }
    if key :| key in next && key.1 == id && next[key].current && !next[key].stale { assert key in rows && !rows[key].stale; }
  }

  lemma CurrentSource<P>(rows: Rows<P>, id: string, s: string)
    ensures s in Current(rows, id) <==> (s, id) in rows && rows[(s, id)].current
    ensures s in Current(rows, id) ==> Current(rows, id)[s] == rows[(s, id)].observation
  {
    assert forall key: Key :: key.0 == s && key.1 == id ==> key == (s, id);
  }

  // ----- The projection -----

  /** What the projection must say about a subject: with current rows, their aggregate
      and whether all of them are stale; without, gone and stale. */
  ghost predicate Agrees<P(!new), A(!new)>(rows: Rows<P>, id: string, summary: Summary<A>, aggregate: Observed<P> -> Option<A>) {
    match aggregate(Current(rows, id))
    case Some(value) => summary == Summary(value, true, !Fresh(rows, id))
    case None => !summary.current && summary.stale
  }

  ghost predicate Consistent<P(!new), A(!new)>(rows: Rows<P>, projection: Projection<A>, aggregate: Observed<P> -> Option<A>) {
    && (forall key :: key in rows ==> key.1 in projection)
    && (forall id :: id in projection ==> Agrees(rows, id, projection[id], aggregate))
  }

  ghost predicate Listed<P, A>(prior: Projection<A>, rows: Rows<P>, id: string, aggregate: Observed<P> -> Option<A>) {
    id in prior || aggregate(Current(rows, id)).Some?
  }

  /** Recomputing one subject from its current rows; the last aggregate is kept when
      there are none. */
  ghost function Recomputed<P, A>(prior: Projection<A>, rows: Rows<P>, id: string, aggregate: Observed<P> -> Option<A>): Summary<A>
    requires Listed(prior, rows, id, aggregate)
  {
    match aggregate(Current(rows, id))
    case Some(value) => Summary(value, true, !Fresh(rows, id))
    case None => prior[id].(current := false, stale := true)
  }

  /** Recomputing the whole projection from scratch, with `added` subjects. */
  ghost function Project<P, A>(prior: Projection<A>, rows: Rows<P>, added: set<string>, aggregate: Observed<P> -> Option<A>): Projection<A> {
    map id | id in prior.Keys + added && Listed(prior, rows, id, aggregate) :: Recomputed(prior, rows, id, aggregate)
  }

  lemma ProjectConsistent<P(!new), A(!new)>(prior: Projection<A>, rows: Rows<P>, added: set<string>, aggregate: Observed<P> -> Option<A>)
    requires forall key :: key in rows ==> key.1 in prior || (key.1 in added && aggregate(Current(rows, key.1)).Some?)
    ensures Consistent(rows, Project(prior, rows, added, aggregate), aggregate)
  {
  }

  /** Recomputing a subject whose view did not change leaves a consistent entry alone. */
  lemma RecomputedIdle<P(!new), A(!new)>(projection: Projection<A>, rows: Rows<P>, next: Rows<P>, id: string, aggregate: Observed<P> -> Option<A>)
    requires id in projection && Agrees(rows, id, projection[id], aggregate)
    requires Current(next, id) == Current(rows, id) && Fresh(next, id) == Fresh(rows, id)
    ensures Recomputed(projection, next, id, aggregate) == projection[id]
  {
  }

  // ----- Ageing and withdrawal, seen from one subject -----

  lemma AgeView<P>(rows: Rows<P>, source: string, sequence: nat, id: string)
    requires !Missed(rows, source, sequence, (source, id))
    ensures Current(Age(rows, source, sequence), id) == Current(rows, id)
    ensures Fresh(Age(rows, source, sequence), id) == Fresh(rows, id)
  {
    assert forall key: Key :: key.1 == id ==> !Missed(rows, source, sequence, key) by {
      forall key: Key | key.1 == id && key.0 == source ensures key == (source, id) {}
    }
    SameView(rows, Age(rows, source, sequence), id);
  }

  lemma AgeOnlyStales<P>(rows: Rows<P>, source: string, sequence: nat, id: string)
    requires forall key :: key in rows ==> (rows[key].stale <==> rows[key].misses >= 2) || !rows[key].current
    ensures Fresh(Age(rows, source, sequence), id) ==> Fresh(rows, id)
    ensures Current(Age(rows, source, sequence), id).Keys <= Current(rows, id).Keys
  {
    var next := Age(rows, source, sequence);
    if key :| key in next && key.1 == id && next[key].current && !next[key].stale {
      assert key in rows && rows[key].current && !rows[key].stale;
    }
  }

  lemma WithdrawView<P>(rows: Rows<P>, sources: set<string>, setMisses: bool, id: string)
    requires forall s :: s in sources ==> (s, id) !in rows || !rows[(s, id)].current
    ensures Current(Withdraw(rows, sources, setMisses), id) == Current(rows, id)
    ensures Fresh(Withdraw(rows, sources, setMisses), id) == Fresh(rows, id)
  {
    forall key: Key | key.1 == id && key.0 in sources ensures key !in rows || !rows[key].current {
      assert key == (key.0, id);
    }
    SameView(rows, Withdraw(rows, sources, setMisses), id);
  }

  lemma PutView<P>(rows: Rows<P>, key: Key, row: Row<P>, id: string)
    requires key.1 != id
    ensures Current(rows[key := row], id) == Current(rows, id) && Fresh(rows[key := row], id) == Fresh(rows, id)
  {
    SameView(rows, rows[key := row], id);
  }
}
