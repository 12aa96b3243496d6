/**
  * The in-memory export job store: a map from job id to job record. Jobs are
  * created `pending` and changed only through `updateJob`, a shallow merge of
  * a partial record that refreshes `updatedAt`. The store enforces no state
  * machine and no progress ordering. The clock reading and the freshly
  * generated id are parameters.
  */
module JobManager {
  import opened Wrappers
  import Influx

  datatype JobState = Pending | Running | Done | Error

  /** What the export attaches under `metadata` when the digest was computed. */
  datatype ExportMetadata = ExportMetadata(
    machineIP: string,
    exportedAt: string,
    rowCount: int,
    measurement: string,
    filters: seq<(string, string)>)

  /**
    * A job record. `status`, `metadata` and `data` are not declared on the
    * source's job type but are stored through the merge like the declared fields.
    */
  datatype ExportJob = ExportJob(
    id: string,
    state: JobState,
    createdAt: int,
    updatedAt: int,
    progress: real,
    rowCount: int,
    error: Option<string>,
    outputFile: Option<string>,
    manifestFile: Option<string>,
    sha256: Option<string>,
    status: Option<string>,
    metadata: Option<ExportMetadata>,
    data: Option<seq<Influx.Row>>)

  /** A partial job record: a field is in the patch when it is `Some`. */
  datatype JobPatch = JobPatch(
    id: Option<string>,
    state: Option<JobState>,
    createdAt: Option<int>,
    updatedAt: Option<int>,
    progress: Option<real>,
    rowCount: Option<int>,
    error: Option<string>,
    outputFile: Option<string>,
    manifestFile: Option<string>,
    sha256: Option<string>,
    status: Option<string>,
    metadata: Option<ExportMetadata>,
    data: Option<seq<Influx.Row>>)

  const EmptyPatch: JobPatch :=
    JobPatch(None, None, None, None, None, None, None, None, None, None, None, None, None)

  /** The record `createJob` stores: pending, no progress, no rows, created and updated now. */
  function NewJob(id: string, now: int): (r: ExportJob)
    ensures r.id == id && r.state == Pending && r.progress == 0.0 && r.rowCount == 0
    ensures r.createdAt == now && r.updatedAt == now
    ensures r.status.None? && r.sha256.None? && r.metadata.None? && r.data.None?
    ensures r.error.None? && r.outputFile.None? && r.manifestFile.None?
  {
    ExportJob(id, Pending, now, now, 0.0, 0, None, None, None, None, None, None, None)
  }

  function Pick<T>(patched: Option<T>, kept: T): T {
    if patched.Some? then patched.value else kept
  }

  function PickOption<T>(patched: Option<T>, kept: Option<T>): Option<T> {
    if patched.Some? then patched else kept
  }

  /**
    * `{ ...job, ...patch, updatedAt: now }`: a field present in the patch takes
    * the patch's value, an absent one keeps the job's, and `updatedAt` is `now`.
    */
  function Merge(job: ExportJob, patch: JobPatch, now: int): (r: ExportJob)
    ensures r.updatedAt == now
    ensures (patch.id.Some? ==> r.id == patch.id.value) && (patch.id.None? ==> r.id == job.id)
    ensures (patch.state.Some? ==> r.state == patch.state.value) && (patch.state.None? ==> r.state == job.state)
    ensures (patch.createdAt.Some? ==> r.createdAt == patch.createdAt.value) && (patch.createdAt.None? ==> r.createdAt == job.createdAt)
    ensures (patch.progress.Some? ==> r.progress == patch.progress.value) && (patch.progress.None? ==> r.progress == job.progress)
    ensures (patch.rowCount.Some? ==> r.rowCount == patch.rowCount.value) && (patch.rowCount.None? ==> r.rowCount == job.rowCount)
    ensures (patch.error.Some? ==> r.error == patch.error) && (patch.error.None? ==> r.error == job.error)
    ensures (patch.outputFile.Some? ==> r.outputFile == patch.outputFile) && (patch.outputFile.None? ==> r.outputFile == job.outputFile)
    ensures (patch.manifestFile.Some? ==> r.manifestFile == patch.manifestFile) && (patch.manifestFile.None? ==> r.manifestFile == job.manifestFile)
    ensures (patch.sha256.Some? ==> r.sha256 == patch.sha256) && (patch.sha256.None? ==> r.sha256 == job.sha256)
    ensures (patch.status.Some? ==> r.status == patch.status) && (patch.status.None? ==> r.status == job.status)
    ensures (patch.metadata.Some? ==> r.metadata == patch.metadata) && (patch.metadata.None? ==> r.metadata == job.metadata)
    ensures (patch.data.Some? ==> r.data == patch.data) && (patch.data.None? ==> r.data == job.data)
  {
    ExportJob(
      Pick(patch.id, job.id),
      Pick(patch.state, job.state),
      Pick(patch.createdAt, job.createdAt),
      now,
      Pick(patch.progress, job.progress),
      Pick(patch.rowCount, job.rowCount),
      PickOption(patch.error, job.error),
      PickOption(patch.outputFile, job.outputFile),
      PickOption(patch.manifestFile, job.manifestFile),
      PickOption(patch.sha256, job.sha256),
      PickOption(patch.status, job.status),
      PickOption(patch.metadata, job.metadata),
      PickOption(patch.data, job.data))
  }

  /** Two patches applied one after the other, as one patch: the later patch wins field by field. */
  function Then(first: JobPatch, second: JobPatch): JobPatch {
    JobPatch(
      PickOption(second.id, first.id),
      PickOption(second.state, first.state),
      PickOption(second.createdAt, first.createdAt),
      PickOption(second.updatedAt, first.updatedAt),
      PickOption(second.progress, first.progress),
      PickOption(second.rowCount, first.rowCount),
      PickOption(second.error, first.error),
      PickOption(second.outputFile, first.outputFile),
      PickOption(second.manifestFile, first.manifestFile),
      PickOption(second.sha256, first.sha256),
      PickOption(second.status, first.status),
      PickOption(second.metadata, first.metadata),
      PickOption(second.data, first.data))
  }

  /** The map after `updateJob(id, patch)` at time `now`: an unknown id leaves it as it was. */
  function Update(jobs: map<string, ExportJob>, id: string, patch: JobPatch, now: int): (r: map<string, ExportJob>)
    ensures r.Keys == jobs.Keys
    ensures forall other :: other in jobs && other != id ==> r[other] == jobs[other]
    ensures id in jobs ==> r[id] == Merge(jobs[id], patch, now)
  {
    if id in jobs then jobs[id := Merge(jobs[id], patch, now)] else jobs
  }

  class JobStore {
    var jobs: map<string, ExportJob>

    constructor ()
      ensures jobs == map[]
    {
      jobs := map[];
    }

    /** Source: jobManager.ts `createJob`; `freshId` is the value `randomUUID()` returned. */
    method CreateJob(freshId: string, now: int) returns (job: ExportJob)
      requires freshId !in jobs
      modifies this
      ensures job == NewJob(freshId, now)
      ensures jobs == old(jobs)[freshId := job]
      ensures |jobs| == |old(jobs)| + 1
    {
      job := ExportJob(freshId, Pending, now, now, 0.0, 0, None, None, None, None, None, None, None);
      jobs := jobs[freshId := job];
    }

    /** Source: jobManager.ts `updateJob`: merge into a known record, or report the id unknown. */
    method UpdateJob(id: string, patch: JobPatch, now: int) returns (updated: Option<ExportJob>)
      modifies this
      ensures id !in old(jobs) ==> updated == None && jobs == old(jobs)
      ensures id in old(jobs) ==> updated == Some(Merge(old(jobs)[id], patch, now)) && jobs == old(jobs)[id := updated.value]
      ensures jobs == Update(old(jobs), id, patch, now)
    {
      if id !in jobs {
        return None;
      }
      var merged := Merge(jobs[id], patch, now);
      jobs := jobs[id := merged];
      updated := Some(merged);
    }

    /** Source: jobManager.ts `getJob`. */
    method GetJob(id: string) returns (job: Option<ExportJob>)
      ensures job.Some? <==> id in jobs
      ensures job.Some? ==> job.value == jobs[id]
    {
      job := if id in jobs then Some(jobs[id]) else None;
    }

    /**
      * Source: jobManager.ts `listJobs`: every stored record exactly once. `ids`
      * gives the key each record was stored under; JavaScript would list them in
      * insertion order, which a map does not keep.
      */
    method ListJobs() returns (all: seq<ExportJob>, ghost ids: seq<string>)
      ensures |all| == |ids| == |jobs|
      ensures forall k :: 0 <= k < |ids| ==> ids[k] in jobs && all[k] == jobs[ids[k]]
      ensures forall id :: id in jobs ==> id in ids
      ensures forall j, k :: 0 <= j < k < |ids| ==> ids[j] != ids[k]
    {
      all, ids := [], [];
      var rest := jobs.Keys;
      while rest != {}
        invariant rest <= jobs.Keys
        invariant |all| == |ids| && |ids| + |rest| == |jobs|
        invariant forall k :: 0 <= k < |ids| ==> ids[k] in jobs && ids[k] !in rest && all[k] == jobs[ids[k]]
        invariant forall id :: id in jobs ==> id in rest || id in ids
        invariant forall j, k :: 0 <= j < k < |ids| ==> ids[j] != ids[k]
        decreases rest
      {
        var id :| id in rest;
        all, ids := all + [jobs[id]], ids + [id];
        rest := rest - {id};
      }
    }
  }

  /** An empty patch only refreshes the timestamp; an `updatedAt` in the patch is always overridden. */
  lemma EmptyPatchTouches(job: ExportJob, patch: JobPatch, now: int)
    ensures Merge(job, EmptyPatch, now) == job.(updatedAt := now)
    ensures Merge(job, patch.(updatedAt := None), now) == Merge(job, patch, now)
  {
  }

  /** Applying two patches in turn is applying their combination once. */
  lemma MergeThen(job: ExportJob, first: JobPatch, second: JobPatch, t1: int, t2: int)
    ensures Merge(Merge(job, first, t1), second, t2) == Merge(job, Then(first, second), t2)
  {
  }

  /** Re-applying the same patch at the same time changes nothing more. */
  lemma MergeIdempotent(job: ExportJob, patch: JobPatch, now: int)
    ensures Merge(Merge(job, patch, now), patch, now) == Merge(job, patch, now)
  {
  }

  /**
    * No state guard: a patch can move a finished job back to any state and
    * any progress, as the store itself never refuses an update.
    */
  lemma NoTerminalGuard(job: ExportJob, s: JobState, p: real, now: int)
    requires job.state == Done
    ensures Merge(job, EmptyPatch.(state := Some(s), progress := Some(p)), now).state == s
    ensures Merge(job, EmptyPatch.(state := Some(s), progress := Some(p)), now).progress == p
  {
  }
}
