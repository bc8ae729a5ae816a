/** The Hub over whole ingestion-only runs (internal/hub/worker.go). */
module WorkerRuns {
  import opened Options
  import opened Ingestion
  import opened IngestionRuns
  import opened Worker

  /** After any enrollments, upserts of sources and deliveries, in any interleaving, the
      tables are those of the run, and reading the change log from its start gives every
      entity's flags. `systems` are the root systems that the posture table lists at each step. */
  method Serve(steps: seq<Step>, systems: seq<set<string>>) returns (hub: Hub)
    requires |systems| == |steps| && forall i :: 0 <= i < |steps| ==> !steps[i].Withdrawal?
    ensures fresh(hub) && hub.Tables() == Run(steps) && hub.Valid()
    ensures forall id :: id in hub.entities ==>
                          Replay(hub.changes, id) == Some(Flags(hub.entities[id].current, hub.entities[id].stale))
  {
    hide Apply, Ingestion.Valid, Ingest, Enrolled, Revived, Replay;
    hub := new Hub();
    assert steps[..0] == [];
    for i := 0 to |steps|
      invariant fresh(hub) && hub.Valid() && hub.LogFaithful() && hub.Tables() == Run(steps[..i])
    {
      assert steps[..i + 1][..i] == steps[..i];
      StepIs(Run(steps[..i]), steps[i]);
      match steps[i] {
        case Enroll(source, target, mode) => hub.Enroll(source, target, mode);
        case Revive(source, target) => hub.Revive(source, target);
        case Deliver(snapshot) => var _ := hub.Normalize(snapshot, systems[i]);
      }
    }
    assert steps[..|steps|] == steps;
  }

  lemma StepIs(t: Tables, step: Step)
    ensures step.Enroll? ==> Apply(t, step) == t.(sources := Enrolled(t.sources, step.source, step.target, step.mode))
    ensures step.Revive? ==> Apply(t, step) == t.(sources := Revived(t.sources, step.source, step.target))
    ensures step.Deliver? ==> Apply(t, step) == Ingest(t, step.snapshot)
  {
  }
}
