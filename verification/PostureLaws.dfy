/** What the aggregation computes, stated without its loops and, where the order
    of the sources cannot matter, without that order. */
module PostureLaws {
  import opened Options
  import opened Sorting
  import opened Posture

  ghost predicate Gives<P>(items: seq<Item<P>>, i: int, key: string) {
    0 <= i < |items| && key in items[i].1.attributes
  }

  ghost function Given<P>(items: seq<Item<P>>, i: int, key: string): Json
    requires Gives(items, i, key)
  {
    items[i].1.attributes[key]
  }

  ghost predicate IsFirst<P>(items: seq<Item<P>>, key: string, i: int) {
    Gives(items, i, key) && forall j :: 0 <= j < i ==> !Gives(items, j, key)
  }

  ghost predicate SomeTrue<P>(items: seq<Item<P>>, key: string) {
    exists i :: Gives(items, i, key) && Given(items, i, key) == Bool(true)
  }

  ghost predicate GivesElement<P>(items: seq<Item<P>>, key: string, x: string) {
    exists i :: Gives(items, i, key) && Given(items, i, key).Array? && x in Given(items, i, key).items
  }

  ghost predicate GivesOtherArray<P>(items: seq<Item<P>>, key: string, first: int) {
    exists i :: i != first && Gives(items, i, key) && Given(items, i, key).Array?
  }

  /** The value of a key, from all rows at once: the first row with the key decides
      the kind; booleans are or-ed, arrays are united and sorted as soon as there
      are two of them, anything else is kept from the first row. */
  ghost predicate Settled<P>(items: seq<Item<P>>, key: string, first: int, value: Json)
    requires IsFirst(items, key, first)
  {
    match Given(items, first, key)
    case Bool(_) => value == Bool(SomeTrue(items, key))
    case Array(own) =>
      && value.Array?
      && (forall x :: x in value.items <==> GivesElement(items, key, x))
      && (if GivesOtherArray(items, key, first) then SortedBy(Before, value.items) else value.items == own)
    case other => value == other
  }

  /** The fold is exactly the per-key rule, for any list of rows. */
  lemma {:induction false} MergedValue<P>(items: seq<Item<P>>, key: string)
    ensures key in MergeAll(items).attributes <==> exists i :: Gives(items, i, key)
    ensures key in MergeAll(items).attributes ==>
              exists i :: IsFirst(items, key, i) && Settled(items, key, i, MergeAll(items).attributes[key])
  {
    if items == [] {
    } else {
      var n := |items| - 1;
      var init := items[..n];
      MergedValue(init, key);
      InitRows(items, init, key);
      var m := MergeAll(init);
      if key in m.attributes {
        var f :| IsFirst(init, key, f) && Settled(init, key, f, m.attributes[key]);
        assert SameRow(items, init, key, f);
        forall j | 0 <= j < f ensures !Gives(items, j, key) { assert SameRow(items, init, key, j); }
        StepSettled(items, key, f, m.attributes[key]);
      } else {
        forall j | 0 <= j < n ensures !Gives(items, j, key) { assert SameRow(items, init, key, j); }
        if Gives(items, n, key) {
          assert IsFirst(items, key, n);
          assert Settled(items, key, n, Given(items, n, key));
        }
      }
    }
  }

  ghost predicate SameRow<P>(items: seq<Item<P>>, init: seq<Item<P>>, key: string, i: int) {
    (Gives(items, i, key) <==> Gives(init, i, key)) && (Gives(init, i, key) ==> Given(items, i, key) == Given(init, i, key))
  }

  lemma InitRows<P>(items: seq<Item<P>>, init: seq<Item<P>>, key: string)
    requires items != [] && init == items[..|items| - 1]
    ensures forall i :: i != |items| - 1 ==> SameRow(items, init, key, i)
  {
  }

  /** What the last row adds to the three summaries that Settled speaks of. */
  lemma LastRow<P>(items: seq<Item<P>>, key: string, f: int)
    requires items != [] && f < |items| - 1
    ensures var n, init := |items| - 1, items[..|items| - 1];
      && (SomeTrue(items, key) <==> SomeTrue(init, key) || (Gives(items, n, key) && Given(items, n, key) == Bool(true)))
      && (GivesOtherArray(items, key, f) <==> GivesOtherArray(init, key, f) || (Gives(items, n, key) && Given(items, n, key).Array?))
  {
    var n, init := |items| - 1, items[..|items| - 1];
    InitRows(items, init, key);
    if i :| Gives(items, i, key) && Given(items, i, key) == Bool(true) { assert SameRow(items, init, key, i) || i == n; }
    if i :| Gives(init, i, key) && Given(init, i, key) == Bool(true) { assert SameRow(items, init, key, i); }
    if i :| i != f && Gives(items, i, key) && Given(items, i, key).Array? { assert SameRow(items, init, key, i) || i == n; }
    if i :| i != f && Gives(init, i, key) && Given(init, i, key).Array? { assert SameRow(items, init, key, i); }
  }

  lemma LastRowElement<P>(items: seq<Item<P>>, key: string, x: string)
    requires items != []
    ensures var n, init := |items| - 1, items[..|items| - 1];
      GivesElement(items, key, x) <==>
        GivesElement(init, key, x) || (Gives(items, n, key) && Given(items, n, key).Array? && x in Given(items, n, key).items)
  {
    var n, init := |items| - 1, items[..|items| - 1];
    InitRows(items, init, key);
    if i :| Gives(items, i, key) && Given(items, i, key).Array? && x in Given(items, i, key).items { assert SameRow(items, init, key, i) || i == n; }
    if i :| Gives(init, i, key) && Given(init, i, key).Array? && x in Given(init, i, key).items { assert SameRow(items, init, key, i); }
  }

  lemma StepSettled<P>(items: seq<Item<P>>, key: string, f: int, value: Json)
    requires items != []
    requires IsFirst(items[..|items| - 1], key, f) && IsFirst(items, key, f)
    requires Settled(items[..|items| - 1], key, f, value)
    ensures Settled(items, key, f,
              if Gives(items, |items| - 1, key) then MergeValue(value, Given(items, |items| - 1, key)) else value)
  {
    hide SomeTrue, GivesElement, GivesOtherArray;
    LastRow(items, key, f);
    forall x { LastRowElement(items, key, x); }
  }

  lemma UnionIs(a: seq<string>, b: seq<string>)
    ensures Union(a, b) == SortedTexts(Members(a) + Members(b)) && SortedBy(Before, Union(a, b))
    ensures Members(Union(a, b)) == Members(a) + Members(b)
  {
    assert forall x :: x in Union(a, b) <==> x in Members(a) + Members(b);
  }

  lemma UnionCommutes(a: seq<string>, b: seq<string>)
    ensures Union(a, b) == Union(b, a)
  {
    hide *;
    UnionIs(a, b);
    UnionIs(b, a);
    assert Members(a) + Members(b) == Members(b) + Members(a);
  }

  lemma UnionAssociates(a: seq<string>, b: seq<string>, c: seq<string>)
    ensures Union(Union(a, b), c) == Union(a, Union(b, c))
  {
    hide *;
    UnionIs(a, b);
    UnionIs(b, c);
    UnionIs(Union(a, b), c);
    UnionIs(a, Union(b, c));
    assert Members(a) + Members(b) + Members(c) == Members(a) + (Members(b) + Members(c));
  }

  lemma UnionIdempotent(a: seq<string>)
    requires SortedBy(Before, a)
    ensures Union(a, a) == a
  {
    UnionIs(a, a);
    SortedTextsIs(Members(a), a);
    assert Members(a) + Members(a) == Members(a);
  }

  /** mergeJSONArrays is a strictly sorted set union. */
  lemma UnionLaws(a: seq<string>, b: seq<string>, c: seq<string>)
    ensures SortedBy(Before, Union(a, b)) && Members(Union(a, b)) == Members(a) + Members(b)
    ensures Union(a, b) == Union(b, a)
    ensures Union(Union(a, b), c) == Union(a, Union(b, c))
    ensures SortedBy(Before, a) ==> Union(a, a) == a
  {
    hide *;
    UnionIs(a, b);
    UnionCommutes(a, b);
    UnionAssociates(a, b, c);
    if SortedBy(Before, a) {
      UnionIdempotent(a);
    }
  }

  // ----- Conflicts -----

  ghost predicate ClashAt<P>(items: seq<Item<P>>, i: int, j: int, key: string) {
    Gives(items, i, key) && Gives(items, j, key) && Clash(Given(items, i, key), Given(items, j, key))
  }

  /** Two rows clash only if one of them clashes with the row that came first. */
  lemma ClashThroughFirst<P>(items: seq<Item<P>>, key: string, f: int)
    requires Gives(items, f, key)
    ensures (exists i, j :: ClashAt(items, i, j, key)) <==> (exists k :: ClashAt(items, f, k, key))
  {
    forall i, j | ClashAt(items, i, j, key)
      ensures exists k :: ClashAt(items, f, k, key)
    {
      assert ClashAt(items, f, i, key) || ClashAt(items, f, j, key);
    }
  }

  /** A row adds a conflict exactly when it clashes with the row that came first. */
  lemma ContestedStep<P>(items: seq<Item<P>>, key: string, f: int)
    requires items != [] && f < |items| - 1
    requires IsFirst(items[..|items| - 1], key, f)
    requires key in MergeAll(items[..|items| - 1]).attributes
    requires Settled(items[..|items| - 1], key, f, MergeAll(items[..|items| - 1]).attributes[key])
    ensures var init := items[..|items| - 1];
      key in MergeAll(items).conflicts <==> key in MergeAll(init).conflicts || ClashAt(items, f, |items| - 1, key)
  {
    var n, init := |items| - 1, items[..|items| - 1];
    InitRows(items, init, key);
    assert SameRow(items, init, key, f);
    assert Gives(items, n, key) ==>
             (Clash(MergeAll(init).attributes[key], Given(items, n, key)) <==> Clash(Given(items, f, key), Given(items, n, key)));
    assert Contested(MergeAll(init), items[n].1.attributes, key) <==> ClashAt(items, f, n, key);
  }

  /** A key is reported as contested exactly when some two rows give it values that
      clash, wherever they stand. */
  lemma {:induction false} ContestedKeys<P>(items: seq<Item<P>>, key: string)
    ensures key in MergeAll(items).conflicts <==> exists i, j :: ClashAt(items, i, j, key)
  {
    if items == [] {
    } else {
      var n := |items| - 1;
      var init := items[..n];
      ContestedKeys(init, key);
      MergedValue(init, key);
      InitRows(items, init, key);
      if key in MergeAll(init).attributes {
        var f :| IsFirst(init, key, f) && Settled(init, key, f, MergeAll(init).attributes[key]);
        assert SameRow(items, init, key, f);
        ClashThroughFirst(init, key, f);
        ClashThroughFirst(items, key, f);
        ContestedStep(items, key, f);
        forall k ensures ClashAt(items, f, k, key) <==> ClashAt(init, f, k, key) || (k == n && ClashAt(items, f, n, key)) {
          assert k == n || SameRow(items, init, key, k);
        }
      } else {
        forall i, j ensures !ClashAt(items, i, j, key) {
          assert i == n || SameRow(items, init, key, i);
          assert j == n || SameRow(items, init, key, j);
        }
      }
    }
  }

  /** What is noted about a contested key: every row that clashes with the first one, with
      its value and its source, the source of the first one, and no other source. */
  ghost predicate Noted<P>(items: seq<Item<P>>, key: string, f: int, values: map<Json, set<string>>)
    requires IsFirst(items, key, f)
  {
    && (forall v, x :: v in values && x in values[v] ==> x == items[f].0 || exists i :: ClashNotes(items, f, i, key, v, x))
    && (forall i :: ClashAt(items, f, i, key) ==> Given(items, i, key) in values && items[i].0 in values[Given(items, i, key)])
    && ((exists i :: ClashAt(items, f, i, key)) ==> exists v :: v in values && items[f].0 in values[v])
  }

  ghost predicate ClashNotes<P>(items: seq<Item<P>>, f: int, i: int, key: string, v: Json, x: string) {
    ClashAt(items, f, i, key) && items[i].0 == x && Given(items, i, key) == v
  }

  lemma FirstOfInit<P>(items: seq<Item<P>>, key: string, f: int)
    requires IsFirst(items, key, f) && f < |items| - 1
    ensures IsFirst(items[..|items| - 1], key, f)
  {
    var init := items[..|items| - 1];
    InitRows(items, init, key);
    assert SameRow(items, init, key, f);
    forall j | 0 <= j < f ensures !Gives(init, j, key) { assert SameRow(items, init, key, j); }
  }

  lemma {:induction false} SelectedFirst<P>(items: seq<Item<P>>, key: string, f: int)
    requires IsFirst(items, key, f)
    ensures key in MergeAll(items).selected && MergeAll(items).selected[key] == items[f].0
  {
    var n := |items| - 1;
    var init := items[..n];
    if f == n {
      MergedValue(init, key);
      InitRows(items, init, key);
      forall i ensures !Gives(init, i, key) { assert i == n || SameRow(items, init, key, i); }
    } else {
      InitRows(items, init, key);
      FirstOfInit(items, key, f);
      SelectedFirst(init, key, f);
    }
  }

  lemma NotedStep<P>(items: seq<Item<P>>, key: string, f: int)
    requires items != [] && f < |items| - 1 && IsFirst(items, key, f) && IsFirst(items[..|items| - 1], key, f)
    requires key in MergeAll(items[..|items| - 1]).attributes && key in MergeAll(items[..|items| - 1]).selected
    requires Settled(items[..|items| - 1], key, f, MergeAll(items[..|items| - 1]).attributes[key])
    requires MergeAll(items[..|items| - 1]).selected[key] == items[f].0
    ensures var n, m := |items| - 1, MergeAll(items[..|items| - 1]);
      PriorValues(MergeAll(items), key) ==
      if ClashAt(items, f, n, key) then Note(Note(PriorValues(m, key), m.attributes[key], items[f].0), Given(items, n, key), items[n].0)
      else PriorValues(m, key)
  {
    var n, init := |items| - 1, items[..|items| - 1];
    InitRows(items, init, key);
    assert SameRow(items, init, key, f);
    assert Gives(items, n, key) ==>
             (Clash(MergeAll(init).attributes[key], Given(items, n, key)) <==> Clash(Given(items, f, key), Given(items, n, key)));
    assert Contested(MergeAll(init), items[n].1.attributes, key) <==> ClashAt(items, f, n, key);
    hide Clash, Settled, Note, MergeAttributes, MergeSelected;
    PriorStep(MergeAll(init), items[n].0, items[n].1.attributes, key);
  }

  lemma PriorStep(m: Merge, source: string, attributes: Attributes, key: string)
    requires m.Valid() && key in m.attributes
    ensures PriorValues(MergeItem(m, source, attributes), key) ==
            if Contested(m, attributes, key) then NoteClash(m, source, key, attributes[key]) else PriorValues(m, key)
  {
    hide Clash, NoteClash;
  }

  lemma NotedMore<P>(items: seq<Item<P>>, key: string, f: int, values: map<Json, set<string>>, was: Json)
    requires items != [] && f < |items| - 1 && IsFirst(items, key, f) && IsFirst(items[..|items| - 1], key, f)
    requires Noted(items[..|items| - 1], key, f, values)
    ensures var n := |items| - 1;
      Noted(items, key, f, if ClashAt(items, f, n, key) then Note(Note(values, was, items[f].0), Given(items, n, key), items[n].0) else values)
  {
    var n, init := |items| - 1, items[..|items| - 1];
    var clash := ClashAt(items, f, n, key);
    InitRows(items, init, key);
    assert SameRow(items, init, key, f);
    forall i | i != n ensures ClashAt(items, f, i, key) <==> ClashAt(init, f, i, key) { assert SameRow(items, init, key, i); }
    var next := if clash then Note(Note(values, was, items[f].0), Given(items, n, key), items[n].0) else values;
    forall v, x | v in next && x in next[v] && x != items[f].0
      ensures exists i :: ClashNotes(items, f, i, key, v, x)
    {
      if v in values && x in values[v] {
        var i :| ClashNotes(init, f, i, key, v, x);
        assert SameRow(items, init, key, i);
        assert ClashNotes(items, f, i, key, v, x);
      } else {
        assert ClashNotes(items, f, n, key, v, x);
      }
    }
    forall i | ClashAt(items, f, i, key)
      ensures Given(items, i, key) in next && items[i].0 in next[Given(items, i, key)]
    {
      if i != n {
        assert SameRow(items, init, key, i) && ClashAt(init, f, i, key);
      }
    }
    if clash {
      assert was in next && items[f].0 in next[was];
    } else if i :| ClashAt(items, f, i, key) {
      assert ClashAt(init, f, i, key);
      var v :| v in values && init[f].0 in values[v];
    }
  }

  /** The conflict report names exactly the sources that clash, each with its own value. */
  lemma {:induction false} ConflictsNoted<P>(items: seq<Item<P>>, key: string, f: int)
    requires IsFirst(items, key, f)
    ensures Noted(items, key, f, PriorValues(MergeAll(items), key))
  {
    hide Noted, MergeItem, Note, PriorValues, Settled, ClashAt;
    var n := |items| - 1;
    var init := items[..n];
    InitRows(items, init, key);
    if f == n {
      NothingNoted(items, key);
    } else {
      FirstOfInit(items, key, f);
      ConflictsNoted(init, key, f);
      SelectedFirst(init, key, f);
      FirstSettles(init, key, f);
      NotedStep(items, key, f);
      NotedMore(items, key, f, PriorValues(MergeAll(init), key), MergeAll(init).attributes[key]);
    }
  }

  lemma FirstSettles<P>(items: seq<Item<P>>, key: string, f: int)
    requires IsFirst(items, key, f)
    ensures key in MergeAll(items).attributes && Settled(items, key, f, MergeAll(items).attributes[key])
  {
    MergedValue(items, key);
    var g :| IsFirst(items, key, g) && Settled(items, key, g, MergeAll(items).attributes[key]);
    assert g == f;
  }

  lemma NothingNoted<P>(items: seq<Item<P>>, key: string)
    requires IsFirst(items, key, |items| - 1)
    ensures Noted(items, key, |items| - 1, PriorValues(MergeAll(items), key))
  {
    var n := |items| - 1;
    var init := items[..n];
    ContestedKeys(items, key);
    forall i, j ensures !ClashAt(items, i, j, key) {
      assert Gives(items, i, key) ==> i == n;
      assert Gives(items, j, key) ==> j == n;
    }
  }

  // ----- The aggregate of a set of sources -----

  ghost predicate Reports<P>(obs: Observed<P>, source: string, key: string) {
    source in obs && key in obs[source].attributes
  }

  /** Every row of the query is a source's observation, and the other way round. */
  lemma RowsAreSources<P(!new)>(obs: Observed<P>)
    ensures forall i :: 0 <= i < |Ranked(obs)| ==> Ranked(obs)[i].0 in obs && obs[Ranked(obs)[i].0] == Ranked(obs)[i].1
    ensures forall s :: s in obs ==> exists i :: 0 <= i < |Ranked(obs)| && Ranked(obs)[i] == (s, obs[s])
  {
    var items := Ranked(obs);
    forall i | 0 <= i < |items| ensures items[i].0 in obs && obs[items[i].0] == items[i].1 {
      assert items[i] in obs.Items;
    }
    forall s | s in obs ensures exists i :: 0 <= i < |items| && items[i] == (s, obs[s]) {
      assert (s, obs[s]) in obs.Items;
      assert (s, obs[s]) in items;
    }
  }

  /** The reporting sources of a key and the rows that give it are the same thing. */
  lemma RowOf<P(!new)>(obs: Observed<P>, s: string, key: string) returns (i: int)
    requires Reports(obs, s, key)
    ensures Gives(Ranked(obs), i, key) && Ranked(obs)[i].0 == s && Given(Ranked(obs), i, key) == obs[s].attributes[key]
  {
    RowsAreSources(obs);
    i :| 0 <= i < |Ranked(obs)| && Ranked(obs)[i] == (s, obs[s]);
  }

  lemma SourceOf<P(!new)>(obs: Observed<P>, i: int, key: string)
    requires Gives(Ranked(obs), i, key)
    ensures Reports(obs, Ranked(obs)[i].0, key) && Given(Ranked(obs), i, key) == obs[Ranked(obs)[i].0].attributes[key]
  {
    RowsAreSources(obs);
  }

  /** A key that every reporting source gives a boolean becomes their disjunction. */
  lemma BooleanKeys<P(!new)>(obs: Observed<P>, key: string)
    requires exists s :: Reports(obs, s, key)
    requires forall s :: Reports(obs, s, key) ==> obs[s].attributes[key].Bool?
    ensures key in MergeAll(Ranked(obs)).attributes
    ensures MergeAll(Ranked(obs)).attributes[key] == Bool(exists s :: Reports(obs, s, key) && obs[s].attributes[key] == Bool(true))
  {
    hide Ranked, MergeAll;
    var items := Ranked(obs);
    MergedValue(items, key);
    var s0 :| Reports(obs, s0, key);
    var i0 := RowOf(obs, s0, key);
    var f :| IsFirst(items, key, f) && Settled(items, key, f, MergeAll(items).attributes[key]);
    SourceOf(obs, f, key);
    if i :| Gives(items, i, key) && Given(items, i, key) == Bool(true) { SourceOf(obs, i, key); }
    if s :| Reports(obs, s, key) && obs[s].attributes[key] == Bool(true) { var i := RowOf(obs, s, key); }
  }

  ghost predicate ReportsElement<P>(obs: Observed<P>, s: string, key: string, x: string) {
    Reports(obs, s, key) && obs[s].attributes[key].Array? && x in obs[s].attributes[key].items
  }

  /** A key that every reporting source gives an array becomes the set union of the
      arrays; strictly sorted when there are two of them, untouched when there is one. */
  lemma ArrayKeys<P(!new)>(obs: Observed<P>, key: string)
    requires exists s :: Reports(obs, s, key)
    requires forall s :: Reports(obs, s, key) ==> obs[s].attributes[key].Array?
    ensures key in MergeAll(Ranked(obs)).attributes && MergeAll(Ranked(obs)).attributes[key].Array?
    ensures var merged := MergeAll(Ranked(obs)).attributes[key];
      && (forall x :: x in merged.items <==> exists s :: ReportsElement(obs, s, key, x))
      && (forall s :: Reports(obs, s, key) ==>
            if forall t :: Reports(obs, t, key) ==> t == s then merged == obs[s].attributes[key]
            else SortedBy(Before, merged.items))
  {
    hide Ranked, MergeAll;
    var items := Ranked(obs);
    MergedValue(items, key);
    var s0 :| Reports(obs, s0, key);
    var i0 := RowOf(obs, s0, key);
    var merged := MergeAll(items).attributes[key];
    var f :| IsFirst(items, key, f) && Settled(items, key, f, merged);
    SourceOf(obs, f, key);
    forall x ensures x in merged.items <==> exists s :: ReportsElement(obs, s, key, x) {
      if i :| Gives(items, i, key) && Given(items, i, key).Array? && x in Given(items, i, key).items {
        SourceOf(obs, i, key);
        assert ReportsElement(obs, items[i].0, key, x);
      }
      if s :| ReportsElement(obs, s, key, x) { var i := RowOf(obs, s, key); assert x in Given(items, i, key).items; }
    }
    forall s | Reports(obs, s, key)
      ensures if forall t :: Reports(obs, t, key) ==> t == s then merged == obs[s].attributes[key]
              else SortedBy(Before, merged.items)
    {
      if forall t :: Reports(obs, t, key) ==> t == s {
        forall i | Gives(items, i, key) ensures i == f { SourceOf(obs, i, key); DistinctRows(obs, i, f); }
        assert !GivesOtherArray(items, key, f);
      } else {
        var t :| Reports(obs, t, key) && t != s;
        var i := RowOf(obs, s, key);
        var j := RowOf(obs, t, key);
        assert GivesOtherArray(items, key, f);
      }
    }
  }

  lemma DistinctRows<P(!new)>(obs: Observed<P>, i: int, j: int)
    requires 0 <= i < |Ranked(obs)| && 0 <= j < |Ranked(obs)| && Ranked(obs)[i].0 == Ranked(obs)[j].0
    ensures i == j
  {
    var items := Ranked(obs);
    RowsAreSources(obs);
    PrecedesOrders(obs);
    assert items[i] == items[j];
    assert !Precedes(items[i], items[j]) && !Precedes(items[j], items[i]);
  }

  ghost predicate Strongest<P>(obs: Observed<P>, s: string) {
    s in obs && forall t :: t in obs && t != s ==> Precedes((s, obs[s]), (t, obs[t]))
  }

  /** The strongest source has the highest confidence, among those the latest observation,
      and among those the smallest name. */
  lemma StrongestIs<P(!new)>(obs: Observed<P>, s: string)
    requires s in obs
    ensures Strongest(obs, s) <==>
              forall t :: t in obs && t != s ==>
                            && Rank(obs[t].confidence) <= Rank(obs[s].confidence)
                            && (obs[t].confidence == obs[s].confidence ==> obs[t].seenAt <= obs[s].seenAt)
                            && (obs[t].confidence == obs[s].confidence && obs[t].seenAt == obs[s].seenAt ==> Before(s, t))
  {
  }

  /** A key that is neither a boolean nor an array for the strongest source that reports it
      has that source's value. */
  lemma PlainKeys<P(!new)>(obs: Observed<P>, key: string, s: string)
    requires Reports(obs, s, key) && !obs[s].attributes[key].Bool? && !obs[s].attributes[key].Array?
    requires forall t :: Reports(obs, t, key) && t != s ==> Precedes((s, obs[s]), (t, obs[t]))
    ensures key in MergeAll(Ranked(obs)).attributes && MergeAll(Ranked(obs)).attributes[key] == obs[s].attributes[key]
  {
    hide Ranked, MergeAll;
    var items := Ranked(obs);
    MergedValue(items, key);
    var i := RowOf(obs, s, key);
    var f :| IsFirst(items, key, f) && Settled(items, key, f, MergeAll(items).attributes[key]);
    SourceOf(obs, f, key);
    RankedSorted(obs);
    if f != i {
      assert f < i && Precedes(items[f], items[i]);
      RowsAreSources(obs);
      NotBothPrecede(obs, items[f], items[i]);
      DistinctSources(obs, f, i);
    }
  }

  lemma RankedSorted<P(!new)>(obs: Observed<P>)
    ensures SortedBy<Item<P>>(Precedes, Ranked(obs))
  {
  }

  lemma NotBothPrecede<P(!new)>(obs: Observed<P>, x: Item<P>, y: Item<P>)
    ensures !(Precedes(x, y) && Precedes(y, x))
  {
    PrecedesOrders(obs);
  }

  lemma DistinctSources<P(!new)>(obs: Observed<P>, i: int, j: int)
    requires 0 <= i < |Ranked(obs)| && 0 <= j < |Ranked(obs)| && i != j
    ensures Ranked(obs)[i].0 != Ranked(obs)[j].0
  {
    if Ranked(obs)[i].0 == Ranked(obs)[j].0 {
      DistinctRows(obs, i, j);
    }
  }

  lemma StrongestFirst<P(!new)>(obs: Observed<P>)
    requires obs != map[]
    ensures var first := Ranked(obs)[0];
      && Strongest(obs, first.0) && obs[first.0] == first.1
      && forall s :: s in obs ==> Rank(obs[s].confidence) <= Rank(first.1.confidence)
  {
    var items := Ranked(obs);
    RowsAreSources(obs);
    var best := items[0].0;
    forall t | t in obs && t != best ensures Precedes((best, obs[best]), (t, obs[t])) {
      var i :| 0 <= i < |items| && items[i] == (t, obs[t]);
      assert Precedes(items[0], items[i]);
    }
  }

  /** The aggregate of an entity: identity from the strongest source, the highest
      confidence, all provenance, and a conflict report for exactly the keys on
      which two sources clash. */
  lemma EntityAggregateIs(obs: Observed<EntityFacts>)
    requires obs != map[]
    ensures AggregateEntity(obs).Some?
    ensures var a := AggregateEntity(obs).value;
      && (exists s :: Strongest(obs, s) && a.name == obs[s].facts.name && a.kind == obs[s].facts.kind && a.canonicalKey == obs[s].facts.canonicalKey
                      && a.confidence == obs[s].confidence)
      && (forall s :: s in obs ==> Rank(obs[s].confidence) <= Rank(a.confidence))
      && SortedBy(Before, a.provenance)
      && (forall p :: p in a.provenance <==> p != "" && exists s :: s in obs && p in obs[s].facts.provenance)
      && (forall key :: key in a.attributes <==> exists s :: Reports(obs, s, key))
      && (forall key :: key in a.conflicts <==> exists s, t :: SourcesClash(obs, s, t, key))
      && a.attributes == MergeAll(Ranked(obs)).attributes && a.conflicts == MergeAll(Ranked(obs)).conflicts
  {
    hide AggregateEntity, Ranked, MergeAll, Provenance;
    StrongestFirst(obs);
    AggregateFields(obs);
    forall p { ProvenanceOfSources(obs, p); }
    forall key { ReportedKeys(obs, key); }
    forall key { ContestedSources(obs, key); }
  }

  lemma AggregateFields(obs: Observed<EntityFacts>)
    requires obs != map[]
    ensures AggregateEntity(obs).Some?
    ensures var a, items := AggregateEntity(obs).value, Ranked(obs);
      && a.name == items[0].1.facts.name && a.kind == items[0].1.facts.kind && a.canonicalKey == items[0].1.facts.canonicalKey
      && a.confidence == items[0].1.confidence
      && SortedBy(Before, a.provenance) && (forall p :: p in a.provenance <==> p in Provenance(items))
      && a.attributes == MergeAll(items).attributes && a.conflicts == MergeAll(items).conflicts
  {
    hide Ranked, MergeAll, Provenance;
  }

  lemma ProvenanceOfSources(obs: Observed<EntityFacts>, p: string)
    ensures p in Provenance(Ranked(obs)) <==> p != "" && exists s :: s in obs && p in obs[s].facts.provenance
  {
    hide Ranked, Provenance;
    var items := Ranked(obs);
    RowsAreSources(obs);
    ProvenanceIs(items, p);
    if s :| s in obs && p in obs[s].facts.provenance {
      var i :| 0 <= i < |items| && items[i] == (s, obs[s]);
    }
  }

  lemma ReportedKeys(obs: Observed<EntityFacts>, key: string)
    ensures key in MergeAll(Ranked(obs)).attributes <==> exists s :: Reports(obs, s, key)
  {
    hide Ranked, MergeAll;
    var items := Ranked(obs);
    MergedValue(items, key);
    if s :| Reports(obs, s, key) {
      var i := RowOf(obs, s, key);
    }
    if i :| Gives(items, i, key) {
      SourceOf(obs, i, key);
    }
  }

  lemma {:induction false} ProvenanceIs(items: seq<Item<EntityFacts>>, p: string)
    ensures p in Provenance(items) <==> p != "" && exists i :: 0 <= i < |items| && p in items[i].1.facts.provenance
  {
    if items == [] {
    } else {
      ProvenanceIs(items[..|items| - 1], p);
      assert forall i :: 0 <= i < |items| - 1 ==> items[..|items| - 1][i] == items[i];
    }
  }

  ghost predicate SourcesClash<P>(obs: Observed<P>, s: string, t: string, key: string) {
    Reports(obs, s, key) && Reports(obs, t, key) && Clash(obs[s].attributes[key], obs[t].attributes[key])
  }

  lemma ContestedSources<P(!new)>(obs: Observed<P>, key: string)
    ensures key in MergeAll(Ranked(obs)).conflicts <==> exists s, t :: SourcesClash(obs, s, t, key)
  {
    var items := Ranked(obs);
    ContestedKeys(items, key);
    if s, t :| SourcesClash(obs, s, t, key) {
      var i := RowOf(obs, s, key);
      var j := RowOf(obs, t, key);
      assert ClashAt(items, i, j, key);
    }
    if i, j :| ClashAt(items, i, j, key) {
      SourceOf(obs, i, key);
      SourceOf(obs, j, key);
      assert SourcesClash(obs, items[i].0, items[j].0, key);
    }
  }

  lemma {:induction false} SurfacesAre(items: seq<Item<RelationFacts>>, x: string)
    ensures x in Surfaces(items) <==> exists i :: 0 <= i < |items| && items[i].1.facts.surface == x
    ensures x in States(items) <==> exists i :: 0 <= i < |items| && items[i].1.facts.state == x
  {
    if items == [] {
    } else {
      var init := items[..|items| - 1];
      SurfacesAre(init, x);
      assert forall i :: 0 <= i < |init| ==> init[i] == items[i];
    }
  }

  lemma SurfacesOfSources(obs: Observed<RelationFacts>, x: string)
    ensures x in Surfaces(Ranked(obs)) <==> exists s :: s in obs && obs[s].facts.surface == x
    ensures x in States(Ranked(obs)) <==> exists s :: s in obs && obs[s].facts.state == x
  {
    hide Ranked, Surfaces, States;
    var items := Ranked(obs);
    SurfacesAre(items, x);
    RowsAreSources(obs);
    forall s | s in obs ensures exists i :: 0 <= i < |items| && items[i].1 == obs[s] {
      var i :| 0 <= i < |items| && items[i] == (s, obs[s]);
    }
  }

  /** The aggregate of a relationship: its ends and kind from the strongest source, the
      highest confidence, and every surface and observation state. */
  lemma RelationAggregateIs(obs: Observed<RelationFacts>)
    requires obs != map[]
    ensures AggregateRelation(obs).Some?
    ensures var a := AggregateRelation(obs).value;
      && (exists s :: Strongest(obs, s) && a.kind == obs[s].facts.kind && a.from == obs[s].facts.from && a.to == obs[s].facts.to
                      && a.confidence == obs[s].confidence)
      && (forall s :: s in obs ==> Rank(obs[s].confidence) <= Rank(a.confidence))
      && SortedBy(Before, a.surfaces) && SortedBy(Before, a.states)
      && (forall x :: x in a.surfaces <==> exists s :: s in obs && obs[s].facts.surface == x)
      && (forall x :: x in a.states <==> exists s :: s in obs && obs[s].facts.state == x)
      && a.attributes == MergeAll(Ranked(obs)).attributes
  {
    hide Ranked, Surfaces, States, MergeAll;
    StrongestFirst(obs);
    forall x { SurfacesOfSources(obs, x); }
  }
}
