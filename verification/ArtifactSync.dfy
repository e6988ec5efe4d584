// The processor that ends a run: it syncs the run's outputs and writes its
// verdict from the statuses they are left with.
module ArtifactSyncs {
  import opened Prelude
  import opened GroupStores
  import RunStatuses
  import Artifacts
  import AgentRuns

  class ArtifactSyncProcessor {
    const platform: AgentRuns.Platform
    const artifacts: Artifacts.ArtifactService

    constructor (p: AgentRuns.Platform, a: Artifacts.ArtifactService)
      ensures platform == p && artifacts == a
    {
      platform, artifacts := p, a;
    }

    // An unknown run is left alone. A run that is syncing fails exactly when the
    // artifact of some output is left failed; outputs that were synced or skipped
    // let it succeed. False stands for an exception.
    method Process(run: RunId, project: string, outputs: seq<Artifacts.Output>, worlds: seq<Artifacts.World>,
                   ghost who: Option<SessionId>)
      returns (ok: bool)
      requires AgentRuns.Context(platform.Snapshot(), who, run) && |worlds| == |outputs|
      modifies platform, artifacts
      ensures run in old(platform.runs) ==>
        artifacts.Contents()
          == Artifacts.WithRun(old(artifacts.Contents()), artifacts.hash, project, outputs, worlds)
      ensures run !in old(platform.runs) ==> ok && artifacts.Contents() == old(artifacts.Contents())
      ensures run in old(platform.runs) && old(platform.runs)[run].status == RunStatuses.Syncing ==>
        var statuses := Artifacts.ReportedBy(old(artifacts.Contents()), artifacts.hash, project, outputs, worlds);
        && ok && run in platform.runs
        && (platform.runs[run].status == RunStatuses.Failed <==> Artifacts.Failed in statuses)
        && (platform.runs[run].status == RunStatuses.Succeeded <==>
              forall i | 0 <= i < |statuses| :: statuses[i] == Artifacts.Synced || statuses[i] == Artifacts.Skipped)
    {
      var failed := [];
      if run in platform.runs {
        var statuses := artifacts.SyncOutputs(project, outputs, worlds);
        failed := Failures(statuses);
      }
      ok := platform.SyncRun(run, failed, who);
    }
  }

  // The filter over the synced artifacts.
  function Failures(statuses: seq<Artifacts.Status>): (failed: seq<bool>)
    ensures true in failed <==> Artifacts.Failed in statuses
  {
    if statuses == [] then [] else [statuses[0].Failed?] + Failures(statuses[1..])
  }
}
