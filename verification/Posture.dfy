/** Aggregation of the current observations of one entity or relationship
    (internal/hub/posture.go). */
module Posture {
  import opened Options
  import opened Sorting

  /** A decoded JSON attribute. The aggregation tells apart booleans, arrays and
      everything else; an array element and any other value are given by their
      canonical JSON text, which determines them. */
  datatype Json = Null | Bool(value: bool) | Array(items: seq<string>) | Text(canonical: string)

  datatype Confidence = Possible | Likely | Confirmed

  function Rank(c: Confidence): nat {
    match c
    case Confirmed => 3
    case Likely => 2
    case Possible => 1
  }

  type Attributes = map<string, Json>

  /** What one source says: the columns shared by source_entities and
      source_relationships, and `facts`, the columns of one of the two. */
  datatype Observation<P> = Observation(seenAt: int, confidence: Confidence, attributes: Attributes, facts: P)

  datatype EntityFacts = EntityFacts(name: string, kind: string, canonicalKey: string, provenance: seq<string>)

  datatype RelationFacts = RelationFacts(kind: string, from: string, to: string, surface: string, state: string)

  /** The current observations of one subject, by source. */
  type Observed<P> = map<string, Observation<P>>

  /** One row of the aggregation query: a source and its observation. */
  type Item<P> = (string, Observation<P>)

  // ----- The order of the aggregation query -----

  predicate Precedes<P>(x: Item<P>, y: Item<P>) {
    var a, b := x.1, y.1;
    || Rank(a.confidence) > Rank(b.confidence)
    || (Rank(a.confidence) == Rank(b.confidence) && a.seenAt > b.seenAt)
    || (Rank(a.confidence) == Rank(b.confidence) && a.seenAt == b.seenAt && Before(x.0, y.0))
  }

  lemma PrecedesOrders<P(!new)>(obs: Observed<P>)
    ensures Orders<Item<P>>(Precedes, obs.Items)
  {
    BeforeOrders(obs.Keys);
    forall x: Item<P> ensures !Precedes(x, x) { BeforeIrreflexive(x.0); }
    forall x: Item<P>, y, z | Precedes(x, y) && Precedes(y, z)
      ensures Precedes(x, z)
    {
      if Before(x.0, y.0) && Before(y.0, z.0) { BeforeTransitive(x.0, y.0, z.0); }
    }
    forall x: Item<P>, y | x in obs.Items && y in obs.Items && x != y
      ensures Precedes(x, y) || Precedes(y, x)
    {
      assert x.0 in obs && y.0 in obs && x.0 != y.0;
    }
  }

  /** The rows in the order the query returns them: strongest confidence first,
      then the latest, then by source. */
  ghost function Ranked<P(!new)>(obs: Observed<P>): (items: seq<Item<P>>)
    ensures |items| == |obs| && forall x :: x in items <==> x in obs.Items
    ensures SortedBy<Item<P>>(Precedes, items)
  {
    PrecedesOrders(obs);
    ItemsSize(obs);
    Sort<Item<P>>(Precedes, obs.Items)
  }

  lemma {:induction false} ItemsSize<P>(obs: Observed<P>)
    ensures |obs.Items| == |obs|
  {
    if obs == map[] {
    } else {
      var s :| s in obs;
      var rest := obs - {s};
      ItemsSize(rest);
      forall x | x in obs.Items ensures x == (s, obs[s]) || x in rest.Items {
        assert x.0 in obs && (x.0 != s ==> x.0 in rest && rest[x.0] == x.1);
      }
      assert obs.Items == rest.Items + {(s, obs[s])};
      assert (s, obs[s]) !in rest.Items;
      assert obs.Keys == rest.Keys + {s};
    }
  }

  // ----- Merging one attribute -----

  /** The union of two arrays in the order of their elements' canonical texts. */
  ghost function Union(left: seq<string>, right: seq<string>): seq<string> {
    SortedTexts(Members(left) + Members(right))
  }

  /** The value kept for a key when `value` arrives after `current`. */
  ghost function MergeValue(current: Json, value: Json): Json {
    if current.Bool? && value.Bool? then Bool(current.value || value.value)
    else if current.Array? && value.Array? then Array(Union(current.items, value.items))
    else current
  }

  /** The two values cannot be reconciled. */
  predicate Clash(current: Json, value: Json) {
    !(current.Bool? && value.Bool?) && !(current.Array? && value.Array?) && current != value
  }

  /** mergeJSONArrays, with its `seen` map keyed by canonical text. */
  method MergeArrays(left: seq<string>, right: seq<string>) returns (result: seq<string>)
    ensures result == Union(left, right)
  {
    var seen := {};
    var both := left + right;
    for i := 0 to |both|
      invariant seen == Members(both[..i])
    {
      seen := seen + {both[i]};
      assert both[..i + 1] == both[..i] + [both[i]];
      MembersAppend(both[..i], both[i]);
    }
    assert both[..|both|] == both;
    MembersConcat(left, right);
    result := SortTexts(seen);
  }

  method SortTexts(keys: set<string>) returns (q: seq<string>)
    ensures q == SortedTexts(keys)
  {
    q := [];
    var rest := keys;
    BeforeOrders(keys);
    while rest != {}
      invariant rest <= keys && Members(q) == keys - rest && SortedBy(Before, q)
      invariant forall x, y :: x in q && y in rest ==> Before(x, y)
    {
      assert Orders(Before, rest);
      LeastExists(Before, rest);
      ghost var least := Least(Before, rest);
      assert least in rest && forall x :: x in rest && x != least ==> Before(least, x);
      var m :| m in rest && forall x :: x in rest && x != m ==> Before(m, x);
      MembersAppend(q, m);
      q := q + [m];
      rest := rest - {m};
    }
    SortedTextsIs(keys, q);
  }

  // ----- Merging the attributes of all observations -----

  /** The maps that the aggregation loop updates: the merged attributes, the
      source that first gave each of them, and, for each contested key, the
      values seen and who gave them. */
  datatype Merge = Merge(
    attributes: Attributes,
    selected: map<string, string>,
    conflicts: map<string, map<Json, set<string>>>)
  {
    ghost predicate Valid() { selected.Keys == attributes.Keys && conflicts.Keys <= attributes.Keys }
  }

  const NOTHING := Merge(map[], map[], map[])

  function Note(values: map<Json, set<string>>, value: Json, source: string): map<Json, set<string>> {
    values[value := (if value in values then values[value] else {}) + {source}]
  }

  ghost predicate Contested(m: Merge, attributes: Attributes, key: string) {
    key in attributes && key in m.attributes && Clash(m.attributes[key], attributes[key])
  }

  ghost function MergeAttributes(m: Merge, attributes: Attributes): Attributes {
    map key | key in m.attributes.Keys + attributes.Keys ::
      if key !in attributes then m.attributes[key]
      else if key !in m.attributes then attributes[key]
      else MergeValue(m.attributes[key], attributes[key])
  }

  ghost function MergeSelected(m: Merge, source: string, attributes: Attributes): map<string, string> {
    map key | key in m.selected.Keys + attributes.Keys :: if key in m.selected then m.selected[key] else source
  }

  ghost function PriorValues(m: Merge, key: string): map<Json, set<string>> {
    if key in m.conflicts then m.conflicts[key] else map[]
  }

  ghost function NoteClash(m: Merge, source: string, key: string, value: Json): map<Json, set<string>>
    requires m.Valid() && key in m.attributes
  {
    Note(Note(PriorValues(m, key), m.attributes[key], m.selected[key]), value, source)
  }

  ghost function MergeConflicts(m: Merge, source: string, attributes: Attributes): map<string, map<Json, set<string>>>
    requires m.Valid()
  {
    map key | key in m.attributes.Keys && (key in m.conflicts || Contested(m, attributes, key)) ::
      if Contested(m, attributes, key) then NoteClash(m, source, key, attributes[key]) else PriorValues(m, key)
  }

  /** One observation merged into what the stronger observations gave, key by key. */
  ghost function MergeItem(m: Merge, source: string, attributes: Attributes): (r: Merge)
    requires m.Valid()
    ensures r.Valid()
  {
    Merge(MergeAttributes(m, attributes), MergeSelected(m, source, attributes), MergeConflicts(m, source, attributes))
  }

  ghost function MergeAll<P>(items: seq<Item<P>>): (m: Merge)
    ensures m.Valid()
  {
    if items == [] then NOTHING else
      var last := items[|items| - 1];
      MergeItem(MergeAll(items[..|items| - 1]), last.0, last.1.attributes)
  }

  /** One turn of the inner loop. */
  ghost function MergeKey(m: Merge, source: string, key: string, value: Json): (r: Merge)
    requires m.Valid()
  {
    if key !in m.attributes then
      m.(attributes := m.attributes[key := value], selected := m.selected[key := source])
    else if Clash(m.attributes[key], value) then
      m.(conflicts := m.conflicts[key := NoteClash(m, source, key, value)])
    else
      m.(attributes := m.attributes[key := MergeValue(m.attributes[key], value)])
  }

  lemma MergeStepConflicts(m: Merge, source: string, done: Attributes, key: string, value: Json)
    requires m.Valid() && key !in done && key in m.attributes
    ensures MergeConflicts(m, source, done[key := value]) ==
            if Clash(m.attributes[key], value)
            then MergeConflicts(m, source, done)[key := NoteClash(m, source, key, value)]
            else MergeConflicts(m, source, done)
  {
    hide NoteClash, PriorValues, Clash;
    var next := done[key := value];
    assert forall k :: k != key ==> (Contested(m, done, k) <==> Contested(m, next, k));
    assert !Contested(m, done, key);
    assert Contested(m, next, key) <==> Clash(m.attributes[key], value);
  }

  lemma MergeStepOld(m: Merge, source: string, done: Attributes, key: string, value: Json)
    requires m.Valid() && key !in done && key in m.attributes
    ensures MergeSelected(m, source, done[key := value]) == MergeSelected(m, source, done)
    ensures MergeAttributes(m, done[key := value]) ==
            if Clash(m.attributes[key], value) then MergeAttributes(m, done)
            else MergeAttributes(m, done)[key := MergeValue(m.attributes[key], value)]
  {
  }

  lemma MergeStepNew(m: Merge, source: string, done: Attributes, key: string, value: Json)
    requires m.Valid() && key !in done && key !in m.attributes
    ensures MergeSelected(m, source, done[key := value]) == MergeSelected(m, source, done)[key := source]
    ensures MergeAttributes(m, done[key := value]) == MergeAttributes(m, done)[key := value]
  {
  }

  lemma MergeStepQuiet(m: Merge, source: string, done: Attributes, key: string, value: Json)
    requires m.Valid() && key !in done && key !in m.attributes
    ensures MergeConflicts(m, source, done[key := value]) == MergeConflicts(m, source, done)
  {
    var next := done[key := value];
    assert forall k :: k in m.attributes ==> (Contested(m, done, k) <==> Contested(m, next, k));
  }

  /** A turn touches its own key only, so the turns of one observation add up to
      MergeItem in whatever order they come. */
  lemma MergeStep(m: Merge, source: string, done: Attributes, key: string, value: Json)
    requires m.Valid() && key !in done
    ensures MergeKey(MergeItem(m, source, done), source, key, value) == MergeItem(m, source, done[key := value])
  {
    var a := MergeItem(m, source, done);
    if key in m.attributes {
      MergeStepConflicts(m, source, done, key, value);
      MergeStepOld(m, source, done, key, value);
      assert !Contested(m, done, key);
      assert PriorValues(a, key) == PriorValues(m, key);
      assert a.attributes[key] == m.attributes[key] && a.selected[key] == m.selected[key];
    } else {
      MergeStepNew(m, source, done, key, value);
      MergeStepQuiet(m, source, done, key, value);
    }
  }

  /** One key of an observation. */
  method MergeOne(before: Merge, source: string, key: string, value: Json) returns (m: Merge)
    requires before.Valid()
    ensures m == MergeKey(before, source, key, value)
  {
    hide Union;
    m := before;
    if key !in m.attributes {
      m := m.(attributes := m.attributes[key := value], selected := m.selected[key := source]);
    } else {
      var current := m.attributes[key];
      if current.Bool? && value.Bool? {
        m := m.(attributes := m.attributes[key := Bool(current.value || value.value)]);
      } else if current.Array? && value.Array? {
        var merged := MergeArrays(current.items, value.items);
        m := m.(attributes := m.attributes[key := Array(merged)]);
      } else if current != value {
        var prior := if key in m.conflicts then m.conflicts[key] else map[];
        prior := Note(prior, current, m.selected[key]);
        prior := Note(prior, value, source);
        m := m.(conflicts := m.conflicts[key := prior]);
      }
    }
  }

  /** The inner loop over a Go map visits its keys in any order. */
  method MergeInto(before: Merge, source: string, attributes: Attributes) returns (m: Merge)
    requires before.Valid()
    ensures m == MergeItem(before, source, attributes)
  {
    m := before;
    var rest := attributes.Keys;
    ghost var done: Attributes := map[];
    assert MergeItem(before, source, done) == before;
    hide MergeItem, Union;
    while rest != {}
      invariant rest <= attributes.Keys && done == attributes - rest
      invariant m == MergeItem(before, source, done)
    {
      var key :| key in rest;
      var value := attributes[key];
      MergeStep(before, source, done, key, value);
      m := MergeOne(m, source, key, value);
      rest := rest - {key};
      done := done[key := value];
    }
    assert done == attributes;
  }

  // ----- Aggregating an entity -----

  datatype EntityAggregate = EntityAggregate(
    name: string, kind: string, canonicalKey: string, attributes: Attributes,
    confidence: Confidence, provenance: seq<string>,
    conflicts: map<string, map<Json, set<string>>>)

  ghost function Provenance(items: seq<Item<EntityFacts>>): set<string> {
    if items == [] then {} else
      var last := items[|items| - 1].1;
      Provenance(items[..|items| - 1]) + set p | p in last.facts.provenance && p != ""
  }

  ghost function AggregateEntity(obs: Observed<EntityFacts>): (r: Option<EntityAggregate>) {
    if obs == map[] then None else
      var items := Ranked(obs);
      var first := items[0].1;
      var m := MergeAll(items);
      Some(EntityAggregate(
        first.facts.name, first.facts.kind, first.facts.canonicalKey, m.attributes,
        first.confidence, SortedTexts(Provenance(items)), m.conflicts))
  }

  method OrderRows<P(!new, ==)>(obs: Observed<P>) returns (items: seq<Item<P>>)
    ensures items == Ranked(obs)
  {
    items := [];
    var rest := obs.Items;
    PrecedesOrders(obs);
    while rest != {}
      invariant rest <= obs.Items && Members(items) == obs.Items - rest && SortedBy<Item<P>>(Precedes, items)
      invariant forall x, y :: x in items && y in rest ==> Precedes(x, y)
    {
      assert Orders<Item<P>>(Precedes, rest);
      ghost var least := Least<Item<P>>(Precedes, rest);
      assert least in rest && forall x :: x in rest && x != least ==> Precedes(least, x);
      var m :| m in rest && forall x :: x in rest && x != m ==> Precedes(m, x);
      MembersAppend(items, m);
      items := items + [m];
      rest := rest - {m};
    }
    assert forall x :: x in items <==> x in Members(items);
    SortIs<Item<P>>(Precedes, obs.Items, items);
    SortIs<Item<P>>(Precedes, obs.Items, Ranked(obs));
  }

  /** The loop over the rows. The running maximum of the confidence never moves, because
      the first row is the strongest. */
  method MergeEntityRows(items: seq<Item<EntityFacts>>) returns (m: Merge, confidence: Confidence, provenance: set<string>)
    requires items != [] && SortedBy<Item<EntityFacts>>(Precedes, items)
    ensures m == MergeAll(items) && confidence == items[0].1.confidence && provenance == Provenance(items)
  {
    confidence := items[0].1.confidence;
    provenance := {};
    m := NOTHING;
    for i := 0 to |items|
      invariant m == MergeAll(items[..i])
      invariant confidence == items[0].1.confidence
      invariant provenance == Provenance(items[..i])
    {
      var item := items[i].1;
      assert i == 0 || Precedes(items[0], items[i]);
      if Rank(item.confidence) > Rank(confidence) {
        confidence := item.confidence;
      }
      provenance := provenance + (set p | p in item.facts.provenance && p != "");
      m := MergeInto(m, items[i].0, item.attributes);
      assert items[..i + 1][..i] == items[..i];
    }
    assert items[..|items|] == items;
  }

  /** aggregateEntityObservations: None is the source's "no rows". */
  method AggregateEntityObservations(obs: Observed<EntityFacts>) returns (result: Option<EntityAggregate>)
    ensures result == AggregateEntity(obs)
  {
    var items := OrderRows(obs);
    if |items| == 0 {
      assert obs == map[];
      return None;
    }
    var m, confidence, provenance := MergeEntityRows(items);
    var names := SortTexts(provenance);
    var first := items[0].1.facts;
    result := Some(EntityAggregate(first.name, first.kind, first.canonicalKey, m.attributes, confidence, names, m.conflicts));
  }

  // ----- Aggregating a relationship -----

  datatype RelationAggregate = RelationAggregate(
    kind: string, from: string, to: string, attributes: Attributes, confidence: Confidence,
    surfaces: seq<string>, states: seq<string>)

  ghost function Surfaces(items: seq<Item<RelationFacts>>): set<string> {
    if items == [] then {} else Surfaces(items[..|items| - 1]) + {items[|items| - 1].1.facts.surface}
  }

  ghost function States(items: seq<Item<RelationFacts>>): set<string> {
    if items == [] then {} else States(items[..|items| - 1]) + {items[|items| - 1].1.facts.state}
  }

  ghost function AggregateRelation(obs: Observed<RelationFacts>): (r: Option<RelationAggregate>) {
    if obs == map[] then None else
      var items := Ranked(obs);
      var first := items[0].1;
      Some(RelationAggregate(
        first.facts.kind, first.facts.from, first.facts.to, MergeAll(items).attributes, first.confidence,
        SortedTexts(Surfaces(items)), SortedTexts(States(items))))
  }

  method MergeRows(items: seq<Item<RelationFacts>>) returns (m: Merge, surfaces: set<string>, states: set<string>)
    ensures m == MergeAll(items) && surfaces == Surfaces(items) && states == States(items)
  {
    m, surfaces, states := NOTHING, {}, {};
    for i := 0 to |items|
      invariant m == MergeAll(items[..i])
      invariant surfaces == Surfaces(items[..i]) && states == States(items[..i])
    {
      ghost var seen := items[..i + 1];
      assert seen[..i] == items[..i] && seen[i] == items[i];
      surfaces := surfaces + {items[i].1.facts.surface};
      states := states + {items[i].1.facts.state};
      m := MergeInto(m, items[i].0, items[i].1.attributes);
    }
    assert items[..|items|] == items;
  }

  /** aggregateRelationshipObservations: the same merge, without the conflict report. */
  method AggregateRelationshipObservations(obs: Observed<RelationFacts>) returns (result: Option<RelationAggregate>)
    ensures result == AggregateRelation(obs)
  {
    var items := OrderRows(obs);
    if |items| == 0 {
      assert obs == map[];
      return None;
    }
    var m, surfaces, states := MergeRows(items);
    var surfaceNames := SortTexts(surfaces);
    var stateNames := SortTexts(states);
    var first := items[0].1;
    result := Some(RelationAggregate(first.facts.kind, first.facts.from, first.facts.to, m.attributes, first.confidence, surfaceNames, stateNames));
  }
}
