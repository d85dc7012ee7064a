/** A resume carried through to the end of the run it starts (api/app/services/workflow_run_service.py,
    workflow-worker/worker/workflows/workflow_run.py). */
module ResumedRuns {
  import opened Common
  import opened Dag
  import opened Engine
  import opened Persistence
  import opened Resume
  import opened WorkflowRuns

  /** A refused resume writes nothing. An accepted one runs the definition of the source's version, or
      the live one of a draft, and no other: only its nodes get rows, and each node that was done in
      the source ends completed with the same output, without having run again. */
  method ResumeAndRun(source: RunRecord, live: Definition, versions: map<string, Definition>, f: NodeFunction,
                      store: RunStore) returns (r: Result<RunStatus, ResumeError>)
    requires store.View() == Inserted()
    modifies store
    ensures r.Failure? ==> store.View() == Inserted()
    ensures r.Success? ==>
      && (source.version.Some? ==> source.version.value in versions)
      && store.run.status == r.value
      && var def := match source.version case Some(v) => versions[v] case None => live;
      if !EdgesKnown(def) || HasCycle(def.edges) then r.value == RunFailed && store.nodes == map[]
      else
        && store.nodes.Keys <= NodeIds(def)
        && forall n :: n in def.nodes && Done(source, n) ==>
             n.id in store.nodes && store.nodes[n.id].status == NodeCompleted && store.nodes[n.id].startedAt == None
             && store.nodes[n.id].output == source.rows.nodes[n.id].output
  {
    var accepted := ResumeRun(source, live, versions);
    if accepted.Failure? {
      return Failure(accepted.error);
    }
    var status := RunDefinition(accepted.value.definition, f, accepted.value.carried, store);
    return Success(status);
  }
}
