/** What the observation rows say after a run: the last thing that the source itself said. */
module Mentions {
  import opened Presence
  import opened Ingestion
  import opened IngestionRuns

  /** Step `k` delivers a snapshot of the source, and it is accepted. */
  ghost predicate Accepts(steps: seq<Step>, k: nat, source: string) {
    && k < |steps| && steps[k].Deliver? && steps[k].snapshot.source == source
    && Admit(Run(steps[..k]).sources, steps[k].snapshot) == Applied
  }

  ghost predicate LastEntity(steps: seq<Step>, k: nat, key: Key) {
    && Accepts(steps, k, key.0) && NamesEntity(steps[k].snapshot, key.1)
    && forall m: nat :: k < m && Accepts(steps, m, key.0) ==> !NamesEntity(steps[m].snapshot, key.1)
  }

  ghost predicate LastRelation(steps: seq<Step>, k: nat, key: Key) {
    && Accepts(steps, k, key.0) && NamesRelation(steps[k].snapshot, key.1)
    && forall m: nat :: k < m && Accepts(steps, m, key.0) ==> !NamesRelation(steps[m].snapshot, key.1)
  }

  /** The row holds the last report about the entity in the snapshot of step `k`. */
  ghost predicate EntityFrom(steps: seq<Step>, k: nat, i: nat, key: Key) {
    && LastEntity(steps, k, key) && Final(steps[k].snapshot.entities, i) && steps[k].snapshot.entities[i].id == key.1
    && EntityStored(Run(steps).entityRows, steps[k].snapshot, i)
  }

  ghost predicate RelationFrom(steps: seq<Step>, k: nat, i: nat, key: Key) {
    && LastRelation(steps, k, key) && Final(steps[k].snapshot.relationships, i) && steps[k].snapshot.relationships[i].id == key.1
    && RelationStored(Run(steps).relationRows, steps[k].snapshot, i)
  }

  lemma AcceptsPrefix(steps: seq<Step>, k: nat, source: string)
    requires k < |steps| - 1
    ensures Accepts(steps, k, source) <==> Accepts(steps[..|steps| - 1], k, source)
  {
    assert steps[..|steps| - 1][..k] == steps[..k];
  }

  /** A step that is no accepted snapshot with the subject in it leaves its observation. */
  lemma StepKeeps(steps: seq<Step>, key: Key)
    requires steps != []
    ensures var n, t, next := |steps| - 1, Run(steps[..|steps| - 1]), Run(steps);
      && (!(Accepts(steps, n, key.0) && NamesEntity(steps[n].snapshot, key.1)) ==> Undisturbed(t.entityRows, next.entityRows, key))
      && (!(Accepts(steps, n, key.0) && NamesRelation(steps[n].snapshot, key.1)) ==> Undisturbed(t.relationRows, next.relationRows, key))
  {
    hide Stores;
    var n, t := |steps| - 1, Run(steps[..|steps| - 1]);
    match steps[n]
    case Enroll(_, _, _) =>
    case Revive(_, _) =>
    case Deliver(s) =>
      if Admit(t.sources, s) == Applied {
        IngestStores(t, s);
        StoresKeeps(t, s, Ingest(t, s), key);
      }
    case Withdrawal(sources, setMisses) =>
      RetireWithdraws(t, sources, setMisses);
      assert OutOf(t.entityRows, sources, setMisses, Run(steps).entityRows, key);
      assert OutOf(t.relationRows, sources, setMisses, Run(steps).relationRows, key);
  }

  lemma StoresKeeps(t: Tables, s: Snapshot, next: Tables, key: Key)
    requires Stores(t, s, next)
    ensures key.0 != s.source || !NamesEntity(s, key.1) ==> Undisturbed(t.entityRows, next.entityRows, key)
    ensures key.0 != s.source || !NamesRelation(s, key.1) ==> Undisturbed(t.relationRows, next.relationRows, key)
  {
  }

  lemma FinalEntity(s: Snapshot, id: string) returns (i: nat)
    requires NamesEntity(s, id)
    ensures Final(s.entities, i) && s.entities[i].id == id
  {
    i := LastAmong(s.entities, id, |s.entities|);
  }

  lemma FinalRelation(s: Snapshot, id: string) returns (i: nat)
    requires NamesRelation(s, id)
    ensures Final(s.relationships, i) && s.relationships[i].id == id
  {
    i := LastAmong(s.relationships, id, |s.relationships|);
  }

  lemma LastAmong<P>(reports: seq<Report<P>>, id: string, n: nat) returns (i: nat)
    requires n <= |reports| && (exists j :: 0 <= j < n && reports[j].id == id) && forall j :: n <= j < |reports| ==> reports[j].id != id
    ensures Final(reports, i) && reports[i].id == id
  {
    if reports[n - 1].id == id {
      i := n - 1;
    } else {
      i := LastAmong(reports, id, n - 1);
    }
  }

  /** After every run, a row of the entity tables holds what the source's last accepted
      snapshot with that entity said about it in its last report. */
  lemma {:induction false} EntityRowsSay(steps: seq<Step>, key: Key)
    requires key in Run(steps).entityRows
    ensures exists k, i :: EntityFrom(steps, k, i, key)
  {
    hide Apply, Ingest, EntityStored, Accepts, NamesEntity, Final;
    if steps == [] {
    } else {
      var n, init := |steps| - 1, steps[..|steps| - 1];
      forall m: nat | m < n ensures Accepts(steps, m, key.0) <==> Accepts(init, m, key.0) { AcceptsPrefix(steps, m, key.0); }
      AcceptsKnown(steps, key.0);
      AcceptsKnown(init, key.0);
      if Accepts(steps, n, key.0) && NamesEntity(steps[n].snapshot, key.1) {
        var i := FinalEntity(steps[n].snapshot, key.1);
        LastStores(steps, key.0);
        assert EntityFrom(steps, n, i, key);
      } else {
        StepKeeps(steps, key);
        EntityRowsSay(init, key);
        var k, i :| EntityFrom(init, k, i, key);
        EntityStays(init, steps, k, i, key);
        assert LastEntity(steps, k, key);
        assert EntityFrom(steps, k, i, key);
      }
    }
  }

  lemma AcceptsKnown(steps: seq<Step>, source: string)
    ensures forall k: nat :: Accepts(steps, k, source) ==> k < |steps| && steps[k].Deliver? && steps[k].snapshot.source == source
  {
  }

  lemma LastStores(steps: seq<Step>, source: string)
    requires steps != [] && Accepts(steps, |steps| - 1, source)
    ensures var s := steps[|steps| - 1].snapshot;
      && (forall i :: Final(s.entities, i) ==> EntityStored(Run(steps).entityRows, s, i))
      && (forall i :: Final(s.relationships, i) ==> RelationStored(Run(steps).relationRows, s, i))
  {
    IngestStores(Run(steps[..|steps| - 1]), steps[|steps| - 1].snapshot);
  }

  lemma EntityStays(init: seq<Step>, steps: seq<Step>, k: nat, i: nat, key: Key)
    requires init <= steps && EntityFrom(init, k, i, key) && Undisturbed(Run(init).entityRows, Run(steps).entityRows, key)
    ensures k < |init| && steps[k] == init[k] && EntityStored(Run(steps).entityRows, steps[k].snapshot, i)
  {
  }

  /** The same for the rows of relationships. */
  lemma {:induction false} RelationRowsSay(steps: seq<Step>, key: Key)
    requires key in Run(steps).relationRows
    ensures exists k, i :: RelationFrom(steps, k, i, key)
  {
    hide Apply, Ingest, RelationStored, Accepts, NamesRelation, Final;
    if steps == [] {
    } else {
      var n, init := |steps| - 1, steps[..|steps| - 1];
      forall m: nat | m < n ensures Accepts(steps, m, key.0) <==> Accepts(init, m, key.0) { AcceptsPrefix(steps, m, key.0); }
      AcceptsKnown(steps, key.0);
      AcceptsKnown(init, key.0);
      if Accepts(steps, n, key.0) && NamesRelation(steps[n].snapshot, key.1) {
        var i := FinalRelation(steps[n].snapshot, key.1);
        LastStores(steps, key.0);
        assert RelationFrom(steps, n, i, key);
      } else {
        StepKeeps(steps, key);
        RelationRowsSay(init, key);
        var k, i :| RelationFrom(init, k, i, key);
        RelationStays(init, steps, k, i, key);
        assert LastRelation(steps, k, key);
        assert RelationFrom(steps, k, i, key);
      }
    }
  }

  lemma RelationStays(init: seq<Step>, steps: seq<Step>, k: nat, i: nat, key: Key)
    requires init <= steps && RelationFrom(init, k, i, key) && Undisturbed(Run(init).relationRows, Run(steps).relationRows, key)
    ensures k < |init| && steps[k] == init[k] && RelationStored(Run(steps).relationRows, steps[k].snapshot, i)
  {
  }
}
