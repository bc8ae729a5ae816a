/** entityChange (internal/hub/posture.go): the diff between the stored entity and
    its new aggregate. */
module EntityDiff {
  import opened Options
  import opened Sorting
  import opened Posture

  datatype Category = Metadata | Identity | ConfidenceLevel | State | NetworkScope | Freshness | Attribution | Capability

  /** One changed field; a missing attribute is reported as Null. */
  datatype Field =
    | NameField(nameBefore: string, nameAfter: string)
    | ConfidenceField(confidenceBefore: Confidence, confidenceAfter: Confidence)
    | AttributeField(key: string, before: Json, after: Json)
    | CurrentField(wasCurrent: bool)

  datatype Change = Change(category: Category, fields: seq<Field>)

  /** The compared part of an entity. */
  datatype Record = Record(name: string, confidence: Confidence, attributes: Attributes)

  predicate PostureAttribute(key: string) {
    || key == "running_at_scan" || key == "deployed" || key == "defined" || key == "configured"
    || key == "installed" || key == "state_present" || key == "cached" || key == "enabled"
  }

  predicate NetworkAttribute(key: string) {
    || key == "binding" || key == "host" || key == "hosts" || key == "port" || key == "ports"
    || key == "transport" || key == "endpoint" || key == "external" || key == "service_kind"
  }

  predicate Holds(attributes: Attributes, key: string) {
    key in attributes && attributes[key] == Bool(true)
  }

  function DiscoveryState(attributes: Attributes): string {
    if Holds(attributes, "running_at_scan") then "running"
    else if Holds(attributes, "deployed") then "deployed"
    else if Holds(attributes, "defined") then "defined"
    else if Holds(attributes, "configured") then "configured"
    else if Holds(attributes, "installed") then "installed"
    else if Holds(attributes, "state_present") then "residual"
    else if Holds(attributes, "cached") then "cached"
    else "observed"
  }

  /** A Go map lookup: the zero value of a missing key. */
  function Lookup(attributes: Attributes, key: string): Json {
    if key in attributes then attributes[key] else Null
  }

  predicate Differs(previous: Attributes, next: Attributes, key: string) {
    (key in previous) != (key in next) || Lookup(previous, key) != Lookup(next, key)
  }

  ghost function AttributeFields(keys: seq<string>, previous: Attributes, next: Attributes): seq<Field> {
    if keys == [] then [] else
      var init, key := keys[..|keys| - 1], keys[|keys| - 1];
      AttributeFields(init, previous, next) +
        if Differs(previous, next, key) then [AttributeField(key, Lookup(previous, key), Lookup(next, key))] else []
  }

  /** The last changed posture or network key decides the category. */
  ghost function AttributeCategory(keys: seq<string>, previous: Attributes, next: Attributes, otherwise: Category): Category {
    if keys == [] then otherwise else
      var init, key := keys[..|keys| - 1], keys[|keys| - 1];
      var c := AttributeCategory(init, previous, next, otherwise);
      if !Differs(previous, next, key) then c
      else if PostureAttribute(key) then State
      else if NetworkAttribute(key) then NetworkScope
      else c
  }

  ghost function IdentityFields(previous: Record, next: Record): seq<Field> {
    (if previous.name != next.name then [NameField(previous.name, next.name)] else []) +
    (if previous.confidence != next.confidence then [ConfidenceField(previous.confidence, next.confidence)] else [])
  }

  ghost function Diff(previous: Record, next: Record): seq<Field> {
    IdentityFields(previous, next) +
    AttributeFields(SortedTexts(previous.attributes.Keys + next.attributes.Keys), previous.attributes, next.attributes)
  }

  ghost function Freshened(current: bool, stale: bool): seq<Field> {
    if !current || stale then [CurrentField(current)] else []
  }

  ghost function IdentityCategory(previous: Record, next: Record): Category {
    if previous.confidence != next.confidence then ConfidenceLevel
    else if previous.name != next.name then Identity
    else Metadata
  }

  ghost function EntityChange(previous: Record, current: bool, stale: bool, next: Record): (r: Option<Change>) {
    var fields := Diff(previous, next) + Freshened(current, stale);
    var keys := SortedTexts(previous.attributes.Keys + next.attributes.Keys);
    var category :=
      if DiscoveryState(previous.attributes) != DiscoveryState(next.attributes) then State
      else if !current || stale then Freshness
      else AttributeCategory(keys, previous.attributes, next.attributes, IdentityCategory(previous, next));
    if fields == [] then None else Some(Change(category, fields))
  }

  // ----- What a change reports -----

  /** Whether a change has to report the field. */
  predicate Reported(previous: Record, current: bool, stale: bool, next: Record, f: Field) {
    match f
    case NameField(before, after) => before != after && before == previous.name && after == next.name
    case ConfidenceField(before, after) => before != after && before == previous.confidence && after == next.confidence
    case AttributeField(key, before, after) =>
      Differs(previous.attributes, next.attributes, key) && before == Lookup(previous.attributes, key) && after == Lookup(next.attributes, key)
    case CurrentField(was) => was == current && (!current || stale)
  }

  /** Name, confidence, the attributes by key, and then whether it was current. */
  predicate Earlier(f: Field, g: Field) {
    match f
    case NameField(_, _) => !g.NameField?
    case ConfidenceField(_, _) => g.AttributeField? || g.CurrentField?
    case AttributeField(key, _, _) => g.CurrentField? || (g.AttributeField? && Before(key, g.key))
    case CurrentField(_) => false
  }

  ghost predicate ReportsAll(previous: Record, current: bool, stale: bool, next: Record, fields: seq<Field>) {
    && (forall f :: f in fields <==> Reported(previous, current, stale, next, f))
    && (forall i, j :: 0 <= i < j < |fields| ==> Earlier(fields[i], fields[j]))
  }

  /** A changed attribute that tells something about the discovery state or the network. */
  predicate Telling(previous: Attributes, next: Attributes, key: string) {
    Differs(previous, next, key) && (PostureAttribute(key) || NetworkAttribute(key))
  }

  /** The greatest of those keys. */
  ghost predicate Decides(previous: Attributes, next: Attributes, key: string) {
    Telling(previous, next, key) && forall other :: Telling(previous, next, other) ==> other == key || Before(other, key)
  }

  /** The category, from what differs: a new discovery state comes first, then that the
      entity was not current and fresh, then the greatest telling key, then the
      confidence, then the name. */
  ghost predicate Categorized(previous: Record, current: bool, stale: bool, next: Record, c: Category) {
    var a, b := previous.attributes, next.attributes;
    if DiscoveryState(a) != DiscoveryState(b) then c == State
    else if !current || stale then c == Freshness
    else
      && (c == State <==> exists key :: Decides(a, b, key) && PostureAttribute(key))
      && (c == NetworkScope <==> exists key :: Decides(a, b, key) && NetworkAttribute(key))
      && ((forall key :: !Telling(a, b, key)) ==>
            && (c == ConfidenceLevel <==> previous.confidence != next.confidence)
            && (c == Identity <==> previous.confidence == next.confidence && previous.name != next.name)
            && (c == Metadata <==> previous.confidence == next.confidence && previous.name == next.name))
  }

  /** The attributes that stand for a discovery state, the strongest first. */
  const STATES := [("running_at_scan", "running"), ("deployed", "deployed"), ("defined", "defined"), ("configured", "configured"),
                   ("installed", "installed"), ("state_present", "residual"), ("cached", "cached")]

  /** The discovery state is that of the strongest attribute that holds. */
  lemma DiscoveryStateIs(attributes: Attributes)
    ensures forall i :: 0 <= i < |STATES| && Holds(attributes, STATES[i].0) && (forall j :: 0 <= j < i ==> !Holds(attributes, STATES[j].0)) ==>
                          DiscoveryState(attributes) == STATES[i].1
    ensures (forall i :: 0 <= i < |STATES| ==> !Holds(attributes, STATES[i].0)) ==> DiscoveryState(attributes) == "observed"
  {
    assert Holds(attributes, STATES[0].0) || Holds(attributes, STATES[1].0) || Holds(attributes, STATES[2].0) || Holds(attributes, STATES[3].0)
           || Holds(attributes, STATES[4].0) || Holds(attributes, STATES[5].0) || Holds(attributes, STATES[6].0)
           || DiscoveryState(attributes) == "observed";
  }

  lemma NoCommonKey(key: string)
    ensures !(PostureAttribute(key) && NetworkAttribute(key))
  {
  }

  /** The greatest telling key among the first keys decides what the loop has so far. */
  ghost predicate DecidesAmong(keys: seq<string>, previous: Attributes, next: Attributes, key: string) {
    && key in keys && Telling(previous, next, key)
    && forall other :: other in keys && Telling(previous, next, other) ==> other == key || Before(other, key)
  }

  lemma {:induction false} CategoryDecided(keys: seq<string>, previous: Attributes, next: Attributes, otherwise: Category)
    requires SortedBy(Before, keys)
    ensures var c := AttributeCategory(keys, previous, next, otherwise);
      && (forall key :: DecidesAmong(keys, previous, next, key) ==> c == if PostureAttribute(key) then State else NetworkScope)
      && ((exists key :: DecidesAmong(keys, previous, next, key)) || (c == otherwise && forall key :: key in keys ==> !Telling(previous, next, key)))
  {
    hide PostureAttribute, NetworkAttribute, Differs, DecidesAmong;
    if keys == [] {
      NoneDecides(previous, next);
    } else {
      var n := |keys| - 1;
      var init, last := keys[..n], keys[n];
      CategoryDecided(init, previous, next, otherwise);
      forall key
        ensures DecidesAmong(keys, previous, next, key) <==> if Telling(previous, next, last) then key == last else DecidesAmong(init, previous, next, key)
      {
        OneMoreDecides(keys, previous, next, key);
      }
      if Telling(previous, next, last) {
        assert DecidesAmong(keys, previous, next, last);
      } else if key :| DecidesAmong(init, previous, next, key) {
        assert DecidesAmong(keys, previous, next, key);
      } else {
        assert forall key :: key in keys <==> key in init || key == last;
      }
    }
  }

  lemma NoneDecides(previous: Attributes, next: Attributes)
    ensures forall key :: !DecidesAmong([], previous, next, key)
  {
  }

  lemma OneMoreDecides(keys: seq<string>, previous: Attributes, next: Attributes, key: string)
    requires keys != [] && SortedBy(Before, keys)
    ensures var init, last := keys[..|keys| - 1], keys[|keys| - 1];
      DecidesAmong(keys, previous, next, key) <==> if Telling(previous, next, last) then key == last else DecidesAmong(init, previous, next, key)
  {
    hide Telling, SortedBy;
    var init, last := keys[..|keys| - 1], keys[|keys| - 1];
    assert forall k :: k in keys <==> k in init || k == last;
    forall k | k in init ensures Before(k, last) && k != last { LastIsGreatest(keys, k); }
    NotBoth(key, last);
  }

  lemma LastIsGreatest(keys: seq<string>, key: string)
    requires keys != [] && SortedBy(Before, keys) && key in keys[..|keys| - 1]
    ensures Before(key, keys[|keys| - 1]) && key != keys[|keys| - 1]
  {
    BeforeIrreflexive(key);
  }

  lemma NotBoth(a: string, b: string)
    ensures !(Before(a, b) && Before(b, a))
  {
    BeforeIrreflexive(a);
    if Before(a, b) && Before(b, a) {
      BeforeTransitive(a, b, a);
    }
  }

  /** What the change of an entity reports and how it is called. */
  lemma ChangeIs(previous: Record, current: bool, stale: bool, next: Record)
    requires EntityChange(previous, current, stale, next).Some?
    ensures var c := EntityChange(previous, current, stale, next).value;
      ReportsAll(previous, current, stale, next, c.fields) && Categorized(previous, current, stale, next, c.category)
  {
    hide Diff, Freshened, ReportsAll, Categorized, SortedTexts, AttributeCategory, DiscoveryState;
    FieldsAre(previous, current, stale, next);
    CategoryIs(previous, current, stale, next);
  }

  /** The part of the attributes in the category. */
  ghost function KeyCategory(previous: Record, next: Record): Category {
    AttributeCategory(SortedTexts(previous.attributes.Keys + next.attributes.Keys), previous.attributes, next.attributes, IdentityCategory(previous, next))
  }

  lemma CategoryCases(previous: Record, current: bool, stale: bool, next: Record)
    requires EntityChange(previous, current, stale, next).Some?
    ensures EntityChange(previous, current, stale, next).value.category ==
              if DiscoveryState(previous.attributes) != DiscoveryState(next.attributes) then State
              else if !current || stale then Freshness
              else KeyCategory(previous, next)
  {
    hide DiscoveryState, Diff, Freshened, AttributeCategory, SortedTexts, IdentityCategory;
  }

  lemma OneDecides(a: Attributes, b: Attributes, x: string, y: string)
    requires Decides(a, b, x) && Decides(a, b, y)
    ensures x == y
  {
    hide Telling;
    if x != y {
      assert Before(x, y) && Before(y, x);
      NotBoth(x, y);
    }
  }

  lemma KeyCategoryIs(previous: Record, next: Record)
    ensures var a, b, c := previous.attributes, next.attributes, KeyCategory(previous, next);
      && (forall key :: Decides(a, b, key) ==> c == if PostureAttribute(key) then State else NetworkScope)
      && ((exists key :: Decides(a, b, key)) || (c == IdentityCategory(previous, next) && forall key :: !Telling(a, b, key)))
  {
    hide PostureAttribute, NetworkAttribute, Telling, Decides, DecidesAmong, AttributeCategory, SortedTexts, IdentityCategory;
    var a, b := previous.attributes, next.attributes;
    var keys := SortedTexts(a.Keys + b.Keys);
    KeysSorted(a, b);
    CategoryDecided(keys, a, b, IdentityCategory(previous, next));
    forall key ensures DecidesAmong(keys, a, b, key) <==> Decides(a, b, key) { DecidesKeys(keys, a, b, key); }
    forall key ensures Telling(a, b, key) ==> key in keys { TellingKnown(a, b, key); }
  }

  lemma CategoryIs(previous: Record, current: bool, stale: bool, next: Record)
    requires EntityChange(previous, current, stale, next).Some?
    ensures Categorized(previous, current, stale, next, EntityChange(previous, current, stale, next).value.category)
  {
    hide EntityChange, DiscoveryState, KeyCategory, PostureAttribute, NetworkAttribute, Decides, Telling;
    var a, b := previous.attributes, next.attributes;
    CategoryCases(previous, current, stale, next);
    KeyCategoryIs(previous, next);
    if key :| Decides(a, b, key) {
      DecidesTells(a, b, key);
      NoCommonKey(key);
      forall other | Decides(a, b, other) ensures other == key { OneDecides(a, b, key, other); }
    } else {
      assert forall key :: !Telling(a, b, key);
    }
  }

  lemma DecidesTells(a: Attributes, b: Attributes, key: string)
    requires Decides(a, b, key)
    ensures Telling(a, b, key) && (PostureAttribute(key) || NetworkAttribute(key))
  {
  }

  lemma KeysSorted(a: Attributes, b: Attributes)
    ensures SortedBy(Before, SortedTexts(a.Keys + b.Keys))
    ensures forall key :: key in SortedTexts(a.Keys + b.Keys) <==> key in a || key in b
  {
    BeforeOrders(a.Keys + b.Keys);
  }

  lemma TellingKnown(a: Attributes, b: Attributes, key: string)
    ensures Telling(a, b, key) ==> key in a || key in b
  {
  }

  lemma DecidesKeys(keys: seq<string>, a: Attributes, b: Attributes, key: string)
    requires forall k :: k in keys <==> k in a || k in b
    ensures DecidesAmong(keys, a, b, key) <==> Decides(a, b, key)
  {
    hide PostureAttribute, NetworkAttribute;
    forall k ensures Telling(a, b, k) ==> k in keys { TellingKnown(a, b, k); }
  }

  lemma {:induction false} AttributesReported(keys: seq<string>, a: Attributes, b: Attributes)
    requires SortedBy(Before, keys)
    ensures var fields := AttributeFields(keys, a, b);
      && (forall f :: f in fields <==> f.AttributeField? && f.key in keys && Differs(a, b, f.key) && f.before == Lookup(a, f.key) && f.after == Lookup(b, f.key))
      && (forall i, j :: 0 <= i < j < |fields| ==> Earlier(fields[i], fields[j]))
  {
    hide Differs, Lookup;
    if keys == [] {
    } else {
      var n := |keys| - 1;
      var init, last := keys[..n], keys[n];
      AttributesReported(init, a, b);
      assert forall key :: key in keys <==> key in init || key == last;
      forall key | key in init ensures Before(key, last) { LastIsGreatest(keys, key); }
      var before := AttributeFields(init, a, b);
      var fields := AttributeFields(keys, a, b);
      forall i, j | 0 <= i < j < |fields|
        ensures Earlier(fields[i], fields[j])
      {
        assert fields[i] == before[i] && before[i] in before;
        if j < |before| {
          assert fields[j] == before[j];
        }
      }
    }
  }

  lemma FieldsAre(previous: Record, current: bool, stale: bool, next: Record)
    requires EntityChange(previous, current, stale, next).Some?
    ensures ReportsAll(previous, current, stale, next, EntityChange(previous, current, stale, next).value.fields)
  {
    hide EntityChange, SortedTexts, AttributeFields, Differs, Lookup, IdentityFields, Freshened, Reported, Earlier;
    var a, b := previous.attributes, next.attributes;
    var keys := SortedTexts(a.Keys + b.Keys);
    FieldsOf(previous, current, stale, next);
    var names, attributes, flags := IdentityFields(previous, next), AttributeFields(keys, a, b), Freshened(current, stale);
    var fields := names + attributes + flags;
    forall f
      ensures f in fields <==> Reported(previous, current, stale, next, f)
    {
      assert f in fields <==> f in names || f in attributes || f in flags;
      ReportedIn(previous, current, stale, next, f);
    }
    forall i, j | 0 <= i < j < |fields|
      ensures Earlier(fields[i], fields[j])
    {
      InOrder(previous, current, stale, next, i, j);
    }
  }

  lemma ReportedIn(previous: Record, current: bool, stale: bool, next: Record, f: Field)
    ensures var a, b := previous.attributes, next.attributes;
      Reported(previous, current, stale, next, f) <==>
        f in IdentityFields(previous, next) || f in AttributeFields(SortedTexts(a.Keys + b.Keys), a, b) || f in Freshened(current, stale)
  {
    hide SortedTexts, AttributeFields, Differs, Lookup;
    var a, b := previous.attributes, next.attributes;
    KeysSorted(a, b);
    AttributesReported(SortedTexts(a.Keys + b.Keys), a, b);
    if f.AttributeField? {
      DiffersKnown(a, b, f.key);
    }
  }

  lemma InOrder(previous: Record, current: bool, stale: bool, next: Record, i: nat, j: nat)
    requires var a, b := previous.attributes, next.attributes;
      i < j < |IdentityFields(previous, next)| + |AttributeFields(SortedTexts(a.Keys + b.Keys), a, b)| + |Freshened(current, stale)|
    ensures var a, b := previous.attributes, next.attributes;
      var fields := IdentityFields(previous, next) + AttributeFields(SortedTexts(a.Keys + b.Keys), a, b) + Freshened(current, stale);
      Earlier(fields[i], fields[j])
  {
    hide SortedTexts, AttributeFields, Differs, Lookup;
    var a, b := previous.attributes, next.attributes;
    KeysSorted(a, b);
    AttributesReported(SortedTexts(a.Keys + b.Keys), a, b);
    var names, attributes, flags := IdentityFields(previous, next), AttributeFields(SortedTexts(a.Keys + b.Keys), a, b), Freshened(current, stale);
    PlacedIn(names, attributes, flags, i);
    PlacedIn(names, attributes, flags, j);
  }

  lemma PlacedIn(names: seq<Field>, attributes: seq<Field>, flags: seq<Field>, i: nat)
    requires i < |names| + |attributes| + |flags|
    ensures var all := names + attributes + flags;
      if i < |names| then all[i] == names[i]
      else if i < |names| + |attributes| then all[i] == attributes[i - |names|] && all[i] in attributes
      else all[i] == flags[i - |names| - |attributes|]
  {
  }

  lemma DiffersKnown(a: Attributes, b: Attributes, key: string)
    ensures Differs(a, b, key) ==> key in a || key in b
  {
  }

  // ----- Computing the change -----

  /** The loop of entityChange over the sorted keys. */
  method CompareAttributes(previous: Attributes, next: Attributes, ordered: seq<string>, found: seq<Field>, identity: Category)
    returns (fields: seq<Field>, category: Category)
    ensures fields == found + AttributeFields(ordered, previous, next)
    ensures category == AttributeCategory(ordered, previous, next, identity)
  {
    fields, category := found, identity;
    for i := 0 to |ordered|
      invariant fields == found + AttributeFields(ordered[..i], previous, next)
      invariant category == AttributeCategory(ordered[..i], previous, next, identity)
    {
      var key := ordered[i];
      assert ordered[..i + 1][..i] == ordered[..i];
      if Differs(previous, next, key) {
        fields := fields + [AttributeField(key, Lookup(previous, key), Lookup(next, key))];
        if PostureAttribute(key) {
          category := State;
        } else if NetworkAttribute(key) {
          category := NetworkScope;
        }
      }
    }
    assert ordered[..|ordered|] == ordered;
  }

  method CompareIdentity(previous: Record, next: Record) returns (fields: seq<Field>, category: Category)
    ensures fields == IdentityFields(previous, next) && category == IdentityCategory(previous, next)
  {
    fields, category := [], Metadata;
    if previous.name != next.name {
      fields := fields + [NameField(previous.name, next.name)];
      category := Identity;
    }
    if previous.confidence != next.confidence {
      fields := fields + [ConfidenceField(previous.confidence, next.confidence)];
      category := ConfidenceLevel;
    }
  }

  method ComputeChange(previous: Record, current: bool, stale: bool, next: Record) returns (r: Option<Change>)
    ensures r == EntityChange(previous, current, stale, next)
    ensures r.None? <==> current && !stale && previous == next
    ensures r.Some? ==> ReportsAll(previous, current, stale, next, r.value.fields) && Categorized(previous, current, stale, next, r.value.category)
  {
    hide DiscoveryState, PostureAttribute, NetworkAttribute, ReportsAll, Categorized;
    NoChangeIff(previous, current, stale, next);
    if EntityChange(previous, current, stale, next).Some? {
      ChangeIs(previous, current, stale, next);
    }
    var fields, category := CompareIdentity(previous, next);
    var ordered := SortTexts(previous.attributes.Keys + next.attributes.Keys);
    fields, category := CompareAttributes(previous.attributes, next.attributes, ordered, fields, category);
    if !current || stale {
      fields := fields + [CurrentField(current)];
      category := Freshness;
    } else {
      assert fields + Freshened(current, stale) == fields;
    }
    assert fields == Diff(previous, next) + Freshened(current, stale);
    if |fields| == 0 {
      return None;
    }
    if DiscoveryState(previous.attributes) != DiscoveryState(next.attributes) {
      category := State;
    }
    r := Some(Change(category, fields));
  }

  // ----- The diff is exact -----

  function Put(attributes: Attributes, key: string, value: Json): Attributes {
    if value == Null then attributes - {key} else attributes[key := value]
  }

  ghost function PatchOne(r: Record, field: Field, forward: bool): Record {
    match field
    case NameField(was, now) => r.(name := if forward then now else was)
    case ConfidenceField(was, now) => r.(confidence := if forward then now else was)
    case AttributeField(key, was, now) => r.(attributes := Put(r.attributes, key, if forward then now else was))
    case CurrentField(_) => r
  }

  /** Reading a change: its "after" values, or its "before" values, put into a record. */
  ghost function Patch(r: Record, fields: seq<Field>, forward: bool): Record {
    if fields == [] then r else
      PatchOne(Patch(r, fields[..|fields| - 1], forward), fields[|fields| - 1], forward)
  }

  lemma {:induction false} PatchConcat(r: Record, f: seq<Field>, g: seq<Field>, forward: bool)
    ensures Patch(r, f + g, forward) == Patch(Patch(r, f, forward), g, forward)
  {
    if g == [] {
      assert f + g == f;
    } else {
      var init := g[..|g| - 1];
      assert (f + g)[..|f + g| - 1] == f + init;
      PatchConcat(r, f, init, forward);
    }
  }

  lemma PatchAppend(r: Record, f: seq<Field>, x: Field, forward: bool)
    ensures Patch(r, f + [x], forward) == PatchOne(Patch(r, f, forward), x, forward)
  {
    assert (f + [x])[..|f|] == f;
  }

  ghost predicate Patched(result: Attributes, start: Attributes, keys: seq<string>, previous: Attributes, next: Attributes, forward: bool, key: string) {
    var goal := if forward then next else previous;
    if key in keys && Differs(previous, next, key)
    then (key in result <==> Lookup(goal, key) != Null) && Lookup(result, key) == Lookup(goal, key)
    else (key in result <==> key in start) && Lookup(result, key) == Lookup(start, key)
  }

  lemma PatchStep(before: Attributes, start: Attributes, keys: seq<string>, previous: Attributes, next: Attributes, forward: bool, key: string)
    requires keys != [] && keys[|keys| - 1] !in keys[..|keys| - 1]
    requires Patched(before, start, keys[..|keys| - 1], previous, next, forward, key)
    ensures var last := keys[|keys| - 1];
      Patched(if Differs(previous, next, last) then Put(before, last, Lookup(if forward then next else previous, last)) else before,
              start, keys, previous, next, forward, key)
  {
    assert key in keys <==> key in keys[..|keys| - 1] || key == keys[|keys| - 1];
  }

  lemma {:induction false} PatchAttributes(r: Record, keys: seq<string>, previous: Attributes, next: Attributes, forward: bool)
    requires forall i, j :: 0 <= i < j < |keys| ==> keys[i] != keys[j]
    ensures var p := Patch(r, AttributeFields(keys, previous, next), forward);
      && p.name == r.name && p.confidence == r.confidence
      && forall key :: Patched(p.attributes, r.attributes, keys, previous, next, forward, key)
  {
    if keys == [] {
    } else {
      var init, last := keys[..|keys| - 1], keys[|keys| - 1];
      PatchAttributes(r, init, previous, next, forward);
      var fields := AttributeFields(init, previous, next);
      PatchAppend(r, fields, AttributeField(last, Lookup(previous, last), Lookup(next, last)), forward);
      var before := Patch(r, fields, forward);
      assert fields + [] == fields;
      var after := Patch(r, AttributeFields(keys, previous, next), forward);
      forall key ensures Patched(after.attributes, r.attributes, keys, previous, next, forward, key) {
        assert Patched(before.attributes, r.attributes, init, previous, next, forward, key);
        PatchStep(before.attributes, r.attributes, keys, previous, next, forward, key);
      }
    }
  }

  /** A changed attribute that `goal` holds as an explicit JSON null, which a field
      cannot tell from a missing attribute. */
  ghost predicate HidesNull(previous: Attributes, next: Attributes, goal: Attributes, key: string) {
    Differs(previous, next, key) && key in goal && goal[key] == Null
  }

  lemma PatchIdentity(previous: Record, next: Record, forward: bool)
    ensures var goal := if forward then next else previous;
      Patch(if forward then previous else next, IdentityFields(previous, next), forward) ==
      (if forward then previous else next).(name := goal.name, confidence := goal.confidence)
  {
    var start := if forward then previous else next;
    var goal := if forward then next else previous;
    var names := if previous.name != next.name then [NameField(previous.name, next.name)] else [];
    PatchAppend(start, [], NameField(previous.name, next.name), forward);
    assert [] + [NameField(previous.name, next.name)] == [NameField(previous.name, next.name)];
    assert Patch(start, names, forward) == start.(name := goal.name);
    PatchAppend(start, names, ConfidenceField(previous.confidence, next.confidence), forward);
    if previous.confidence == next.confidence {
      assert IdentityFields(previous, next) == names;
    }
  }

  /** The attributes after the whole patch are those of `goal`, but for hidden nulls. */
  lemma PatchedAttributes(previous: Attributes, next: Attributes, forward: bool, keys: seq<string>,
                          start: Attributes, goal: Attributes, result: Attributes)
    requires (start, goal) == if forward then (previous, next) else (next, previous)
    requires forall key :: key in keys <==> key in previous.Keys + next.Keys
    requires forall key :: Patched(result, start, keys, previous, next, forward, key)
    ensures result == goal <==> !exists key :: HidesNull(previous, next, goal, key)
  {
    if key :| HidesNull(previous, next, goal, key) {
      assert Patched(result, start, keys, previous, next, forward, key);
      assert key !in result;
    } else {
      forall key ensures (key in result <==> key in goal) && Lookup(result, key) == Lookup(goal, key) {
        assert Patched(result, start, keys, previous, next, forward, key);
        assert !HidesNull(previous, next, goal, key);
      }
      forall key | key in goal ensures result[key] == goal[key] {
        assert Lookup(result, key) == Lookup(goal, key);
      }
    }
  }

  /** The "after" values turn the old record into the new one exactly when no changed
      attribute is an explicit null in the new one; the "before" values undo the change
      exactly when none is an explicit null in the old one. */
  lemma DiffIsExact(previous: Record, next: Record, forward: bool)
    ensures var start := if forward then previous else next;
      var goal := if forward then next else previous;
      Patch(start, Diff(previous, next), forward) == goal
      <==> !exists key :: HidesNull(previous.attributes, next.attributes, goal.attributes, key)
  {
    var start := if forward then previous else next;
    var goal := if forward then next else previous;
    var keys := SortedTexts(previous.attributes.Keys + next.attributes.Keys);
    BeforeOrders(previous.attributes.Keys + next.attributes.Keys);
    var named := start.(name := goal.name, confidence := goal.confidence);
    PatchConcat(start, IdentityFields(previous, next), AttributeFields(keys, previous.attributes, next.attributes), forward);
    PatchIdentity(previous, next, forward);
    PatchAttributes(named, keys, previous.attributes, next.attributes, forward);
    var p := Patch(start, Diff(previous, next), forward);
    PatchedAttributes(previous.attributes, next.attributes, forward, keys, start.attributes, goal.attributes, p.attributes);
  }

  lemma {:induction false} PlainFields(keys: seq<string>, previous: Attributes, next: Attributes)
    ensures AttributeFields(keys, previous, next) == [] <==> forall key :: key in keys ==> !Differs(previous, next, key)
    ensures forall f :: f in AttributeFields(keys, previous, next) ==> f.AttributeField?
  {
    if keys == [] {
    } else {
      var init, last := keys[..|keys| - 1], keys[|keys| - 1];
      PlainFields(init, previous, next);
      assert forall key :: key in keys <==> key in init || key == last;
    }
  }

  lemma SameAttributes(previous: Attributes, next: Attributes)
    ensures previous == next <==> forall key :: key in previous.Keys + next.Keys ==> !Differs(previous, next, key)
  {
    if forall key :: key in previous.Keys + next.Keys ==> !Differs(previous, next, key) {
      forall key ensures (key in previous <==> key in next) && (key in previous ==> previous[key] == next[key]) {
        assert key in previous.Keys + next.Keys ==> !Differs(previous, next, key);
      }
    }
  }

  /** No change is reported exactly for an entity that is current, fresh and the same. */
  lemma NoChangeIff(previous: Record, current: bool, stale: bool, next: Record)
    ensures EntityChange(previous, current, stale, next) == None <==> current && !stale && previous == next
  {
    var keys := SortedTexts(previous.attributes.Keys + next.attributes.Keys);
    PlainFields(keys, previous.attributes, next.attributes);
    SameAttributes(previous.attributes, next.attributes);
  }

  /** The differences of two records do not tell whether the entity was current. */
  lemma DiffIsTimeless(previous: Record, next: Record)
    ensures forall f :: f in Diff(previous, next) ==> !f.CurrentField?
  {
    var keys := SortedTexts(previous.attributes.Keys + next.attributes.Keys);
    PlainFields(keys, previous.attributes, next.attributes);
    hide SortedTexts, AttributeFields;
    assert forall f :: f in IdentityFields(previous, next) ==> !f.CurrentField?;
  }

  lemma FieldsOf(previous: Record, current: bool, stale: bool, next: Record)
    requires EntityChange(previous, current, stale, next).Some?
    ensures EntityChange(previous, current, stale, next).value.fields == Diff(previous, next) + Freshened(current, stale)
  {
    hide Diff, Freshened, SortedTexts, AttributeCategory, DiscoveryState, IdentityCategory;
  }

  lemma NetworkIsFresh(previous: Record, current: bool, stale: bool, next: Record)
    requires EntityChange(previous, current, stale, next).Some?
    ensures EntityChange(previous, current, stale, next).value.category == NetworkScope ==> current && !stale
  {
    hide Diff, Freshened, SortedTexts, AttributeCategory, DiscoveryState, IdentityCategory;
  }

  /** A "current" field is reported exactly for an entity that was not current and
      fresh; a change that is passed on to connected systems never carries one. */
  lemma CurrentFieldIff(previous: Record, current: bool, stale: bool, next: Record)
    requires EntityChange(previous, current, stale, next).Some?
    ensures var c := EntityChange(previous, current, stale, next).value;
      && (!current || stale <==> exists f :: f in c.fields && f.CurrentField?)
      && (c.category == NetworkScope ==> forall f :: f in c.fields ==> !f.CurrentField?)
  {
    hide EntityChange, Diff;
    FieldsOf(previous, current, stale, next);
    NetworkIsFresh(previous, current, stale, next);
    DiffIsTimeless(previous, next);
    var fields := EntityChange(previous, current, stale, next).value.fields;
    if !current || stale {
      assert fields[|fields| - 1] == CurrentField(current) && CurrentField(current) in fields;
    } else {
      assert fields == Diff(previous, next);
    }
  }

  function Versioned(version: Json): Record {
    Record("agent", Confirmed, map["version" := version])
  }

  /** A version that becomes an explicit null is lost going forward, and one that was an
      explicit null is lost going back. */
  lemma NullIsLost()
    ensures var text, none := Versioned(Text("1")), Versioned(Null);
      && Patch(text, Diff(text, none), true) != none
      && Patch(text, Diff(none, text), false) != none
  {
    var text, none := Versioned(Text("1")), Versioned(Null);
    assert Differs(text.attributes, none.attributes, "version") && Differs(none.attributes, text.attributes, "version");
    assert HidesNull(text.attributes, none.attributes, none.attributes, "version");
    assert HidesNull(none.attributes, text.attributes, none.attributes, "version");
    hide Patch, Diff, HidesNull;
    DiffIsExact(text, none, true);
    DiffIsExact(none, text, false);
  }
}
