/**
  * The bulk export routes: `/export` creates a job and runs the export in the
  * background as a fixed sequence of job updates, `/status` returns a job
  * snapshot and `/download` serves the canonical JSON Lines body. The data
  * source, `JSON.stringify` and the SHA-256 hex digest are parameters of the
  * model; so are the clock readings, the job id and the export timestamp.
  */
module Bulk {
  import opened Wrappers
  import opened JsStrings
  import Influx
  import opened JobManager

  /** A request body that passed schema validation; `measurement` already carries its default. */
  datatype ExportRequest = ExportRequest(
    start: string,
    end: string,
    measurement: string,
    filters: Option<seq<(string, string)>>)

  datatype ExportResponse = InvalidPayload | Accepted(jobId: string)

  datatype StatusResponse = JobNotFound | Snapshot(job: ExportJob)

  datatype DownloadResponse =
    | NotReadyOrNotFound
    | NoDataAvailable
    | Attachment(filename: string, body: string)

  const QueryingStatus: string := "Querying InfluxDB..."
  const NoDataStatus: string := "No data found"
  const ProcessingStatus: string := "Processing data..."
  const CompletedStatus: string := "Export completed"
  const DigestUnavailable: string := "error"

  /** `filters || {}`. */
  function FiltersOrEmpty(req: ExportRequest): seq<(string, string)> {
    if req.filters.Some? then req.filters.value else []
  }

  /** The options handed to `queryEnergyData`: no explicit bucket. */
  function EnergyQueryOf(req: ExportRequest): Influx.EnergyQuery {
    Influx.EnergyQuery(req.start, req.end, Some(req.measurement), Some(FiltersOrEmpty(req)), None)
  }

  /* ---------------- canonical JSON Lines ---------------- */

  /** One serialized line per row, in row order. */
  function Lines(rows: seq<Influx.Row>, stringify: Influx.Row -> string): (lines: seq<string>)
    ensures |lines| == |rows|
    ensures forall k :: 0 <= k < |rows| ==> lines[k] == stringify(rows[k])
  {
    seq(|rows|, k requires 0 <= k < |rows| => stringify(rows[k]))
  }

  /** `rows.map(stringify).join('\n') + '\n'`. */
  function Canonical(rows: seq<Influx.Row>, stringify: Influx.Row -> string): (r: string)
    ensures |r| >= 1 && r[|r| - 1] == '\n'
    ensures rows == [] ==> r == "\n"
    ensures |rows| == 1 ==> r == stringify(rows[0]) + "\n"
  {
    Join(Lines(rows, stringify), '\n') + "\n"
  }

  /* ---------------- the job updates of one export ---------------- */

  const RunningPatch: JobPatch := EmptyPatch.(state := Some(Running), progress := Some(0.0))
  const QueryingPatch: JobPatch := EmptyPatch.(progress := Some(0.2), status := Some(QueryingStatus))
  const NoDataPatch: JobPatch :=
    EmptyPatch.(state := Some(Done), progress := Some(1.0), rowCount := Some(0), status := Some(NoDataStatus))

  function ProcessingPatch(rowCount: int): JobPatch {
    EmptyPatch.(progress := Some(0.5), rowCount := Some(rowCount), status := Some(ProcessingStatus))
  }

  /** The final update of a non-empty export; `metadata` is absent when the digest could not be computed. */
  function CompletedPatch(id: string, rows: seq<Influx.Row>, sha256: string, metadata: Option<ExportMetadata>): JobPatch {
    EmptyPatch.(state := Some(Done), progress := Some(1.0), rowCount := Some(|rows|), status := Some(CompletedStatus),
      outputFile := Some(id + ".jsonl"), sha256 := Some(sha256), metadata := metadata, data := Some(rows))
  }

  function ErrorPatch(message: string): JobPatch {
    EmptyPatch.(state := Some(Error), progress := Some(0.0), status := Some(message))
  }

  /** The final update once the rows are in: with the prefixed digest and metadata, or with the sentinel digest. */
  function FinalPatch(id: string, req: ExportRequest, rows: seq<Influx.Row>, digest: Option<string>,
                      machineIP: string, exportedAt: string): JobPatch {
    if digest.Some? then
      CompletedPatch(id, rows, "0x" + digest.value,
        Some(ExportMetadata(machineIP, exportedAt, |rows|, req.measurement, FiltersOrEmpty(req))))
    else CompletedPatch(id, rows, DigestUnavailable, None)
  }

  /**
    * The updates the background run applies, in order, given what the data
    * source returned and what digesting the canonical body gave.
    */
  function RunPatches(id: string, req: ExportRequest, fetched: Result<seq<Influx.Row>, string>,
                      stringify: Influx.Row -> string, digest: string -> Option<string>,
                      machineIP: string, exportedAt: string): (patches: seq<JobPatch>)
    ensures 2 <= |patches| <= 3 && patches[0] == QueryingPatch
  {
    [QueryingPatch] +
      match fetched
      case Failure(message) => [ErrorPatch(message)]
      case Success(rows) =>
        if |rows| == 0 then [NoDataPatch]
        else [ProcessingPatch(|rows|),
              FinalPatch(id, req, rows, digest(Canonical(rows, stringify)), machineIP, exportedAt)]
  }

  /** The store after applying `patches` to job `id` one by one, the `k`-th at clock reading `clock[k]`. */
  function Replay(jobs: map<string, ExportJob>, id: string, patches: seq<JobPatch>, clock: seq<int>): (r: map<string, ExportJob>)
    requires |patches| <= |clock|
    ensures r.Keys == jobs.Keys
    decreases |patches|
  {
    if |patches| == 0 then jobs
    else Replay(Update(jobs, id, patches[0], clock[0]), id, patches[1..], clock[1..])
  }

  /** No field of the request that reaches the query text, nor the target bucket, holds a newline. */
  predicate SingleLineFields(req: ExportRequest, configuredBucket: Option<string>) {
    && '\n' !in Influx.TargetBucket(None, configuredBucket)
    && '\n' !in req.start && '\n' !in req.end && '\n' !in req.measurement
    && forall k :: 0 <= k < |FiltersOrEmpty(req)| ==>
         '\n' !in FiltersOrEmpty(req)[k].0 && '\n' !in FiltersOrEmpty(req)[k].1
  }

  /**
    * What the data source returns for the query `queryEnergyData` builds from the
    * request. With no explicit bucket, the text reads from the configured or
    * default bucket, then holds the request's range, its measurement and one line
    * per filter (none when absent).
    */
  function Fetch(req: ExportRequest, configuredBucket: Option<string>,
                 source: string -> Result<seq<Influx.Row>, string>): (r: Result<seq<Influx.Row>, string>)
    ensures r == source(Influx.QueryText(EnergyQueryOf(req), configuredBucket))
    ensures SingleLineFields(req, configuredBucket) ==>
      Split(Influx.QueryText(EnergyQueryOf(req), configuredBucket), '\n') ==
        [ Influx.BucketLine(Influx.TargetBucket(None, configuredBucket)),
          Influx.RangeLine(Influx.FluxTime(Influx.StartParam(req.start)), Influx.FluxTime(Influx.EndParam(req.end))),
          Influx.MeasurementLine(req.measurement) ] + Influx.FilterLines(FiltersOrEmpty(req))
  {
    assert SingleLineFields(req, configuredBucket) ==>
      Split(Influx.QueryText(EnergyQueryOf(req), configuredBucket), '\n') ==
        [ Influx.BucketLine(Influx.TargetBucket(None, configuredBucket)),
          Influx.RangeLine(Influx.FluxTime(Influx.StartParam(req.start)), Influx.FluxTime(Influx.EndParam(req.end))),
          Influx.MeasurementLine(req.measurement) ] + Influx.FilterLines(FiltersOrEmpty(req)) by {
      if SingleLineFields(req, configuredBucket) {
        Influx.QueryLines(EnergyQueryOf(req), configuredBucket);
      }
    }
    source(Influx.QueryText(EnergyQueryOf(req), configuredBucket))
  }

  /**
    * Source: bulk.ts lines 18-28 and 112: a body that failed validation is refused
    * before any job exists; otherwise a job is created, marked running and its id
    * returned. `createdAt` and `startedAt` are the two clock readings.
    */
  method StartExport(store: JobStore, body: Option<ExportRequest>, freshId: string, createdAt: int, startedAt: int)
    returns (response: ExportResponse)
    requires body.Some? ==> freshId !in store.jobs
    modifies store
    ensures body.None? ==> response == InvalidPayload && store.jobs == old(store.jobs)
    ensures body.Some? ==> (response == Accepted(freshId)
      && store.jobs == old(store.jobs)[freshId := Merge(NewJob(freshId, createdAt), RunningPatch, startedAt)])
  {
    if body.None? {
      return InvalidPayload;
    }
    var job := store.CreateJob(freshId, createdAt);
    var updated := store.UpdateJob(job.id, RunningPatch, startedAt);
    response := Accepted(job.id);
  }

  /**
    * Source: bulk.ts lines 31-110: the background run of one export, as the
    * sequence of job updates it performs. `source` stands for the InfluxDB call
    * (a `Failure` carries the message the job records), `digest` for hashing the
    * canonical body to lower-case hex (`None` when it throws).
    */
  method RunExport(store: JobStore, id: string, req: ExportRequest, configuredBucket: Option<string>,
                   source: string -> Result<seq<Influx.Row>, string>,
                   stringify: Influx.Row -> string, digest: string -> Option<string>,
                   machineIP: string, exportedAt: string, clock: seq<int>)
    requires |clock| >= 3
    modifies store
    ensures store.jobs == Replay(old(store.jobs), id,
      RunPatches(id, req, Fetch(req, configuredBucket, source), stringify, digest, machineIP, exportedAt), clock)
  {
    ghost var jobs0 := store.jobs;
    var updated := store.UpdateJob(id, QueryingPatch, clock[0]);
    ghost var jobs1 := store.jobs;

    var q := EnergyQueryOf(req);
    var flux := Influx.BuildEnergyQuery(q, configuredBucket);
    Influx.BuiltQueryNotBlank(q, configuredBucket);
    var prepared := Influx.PrepareFluxQuery(flux, None);
    var fetched := source(prepared.value);
    ghost var patches := RunPatches(id, req, fetched, stringify, digest, machineIP, exportedAt);
    assert fetched == Fetch(req, configuredBucket, source);

    if fetched.Failure? {
      updated := store.UpdateJob(id, ErrorPatch(fetched.error), clock[1]);
      ReplayTwo(jobs0, id, patches, clock);
      return;
    }
    var rows := fetched.value;
    if |rows| == 0 {
      updated := store.UpdateJob(id, NoDataPatch, clock[1]);
      ReplayTwo(jobs0, id, patches, clock);
      return;
    }
    updated := store.UpdateJob(id, ProcessingPatch(|rows|), clock[1]);
    var jsonl := Canonical(rows, stringify);
    var hashed := digest(jsonl);
    if hashed.Some? {
      var metadata := ExportMetadata(machineIP, exportedAt, |rows|, req.measurement, FiltersOrEmpty(req));
      updated := store.UpdateJob(id, CompletedPatch(id, rows, "0x" + hashed.value, Some(metadata)), clock[2]);
    } else {
      updated := store.UpdateJob(id, CompletedPatch(id, rows, DigestUnavailable, None), clock[2]);
    }
    ReplayThree(jobs0, id, patches, clock);
  }

  /** Replaying two patches is two updates. */
  lemma ReplayTwo(jobs: map<string, ExportJob>, id: string, patches: seq<JobPatch>, clock: seq<int>)
    requires |patches| == 2 && |clock| >= 2
    ensures Replay(jobs, id, patches, clock)
      == Update(Update(jobs, id, patches[0], clock[0]), id, patches[1], clock[1])
  {
    var j1 := Update(jobs, id, patches[0], clock[0]);
    assert Replay(jobs, id, patches, clock) == Replay(j1, id, patches[1..], clock[1..]);
    assert patches[1..][1..] == [];
  }

  /** Replaying three patches is three updates. */
  lemma ReplayThree(jobs: map<string, ExportJob>, id: string, patches: seq<JobPatch>, clock: seq<int>)
    requires |patches| == 3 && |clock| >= 3
    ensures Replay(jobs, id, patches, clock)
      == Update(Update(Update(jobs, id, patches[0], clock[0]), id, patches[1], clock[1]), id, patches[2], clock[2])
  {
    var j1 := Update(jobs, id, patches[0], clock[0]);
    assert Replay(jobs, id, patches, clock) == Replay(j1, id, patches[1..], clock[1..]);
    ReplayTwo(j1, id, patches[1..], clock[1..]);
  }

  /** A replay touches only job `id`. */
  lemma {:induction false} ReplayKeepsOthers(jobs: map<string, ExportJob>, id: string, patches: seq<JobPatch>, clock: seq<int>)
    requires |patches| <= |clock|
    ensures forall other :: other in jobs && other != id ==> Replay(jobs, id, patches, clock)[other] == jobs[other]
    decreases |patches|
  {
    if |patches| > 0 {
      ReplayKeepsOthers(Update(jobs, id, patches[0], clock[0]), id, patches[1..], clock[1..]);
    }
  }

  /* ---------------- how a run ends ---------------- */

  /**
    * A failed data-source call ends the job in `error` with progress 0 and the
    * message in `status`; the `error` field and the data are left as they were.
    */
  lemma SourceFailureOutcome(jobs: map<string, ExportJob>, id: string, req: ExportRequest, message: string,
                             stringify: Influx.Row -> string, digest: string -> Option<string>,
                             machineIP: string, exportedAt: string, clock: seq<int>)
    requires id in jobs && |clock| >= 3
    ensures var patches := RunPatches(id, req, Failure(message), stringify, digest, machineIP, exportedAt);
      var job := Replay(jobs, id, patches, clock)[id];
      && |patches| == 2
      && job.state == Error && job.progress == 0.0 && job.status == Some(message)
      && job.error == jobs[id].error && job.data == jobs[id].data && job.sha256 == jobs[id].sha256
      && job.updatedAt == clock[1]
  {
    var patches := RunPatches(id, req, Failure(message), stringify, digest, machineIP, exportedAt);
    ReplayTwo(jobs, id, patches, clock);
  }

  /** Zero rows is success: `done`, progress 1, no rows counted, and no data attached by the run. */
  lemma NoRowsOutcome(jobs: map<string, ExportJob>, id: string, req: ExportRequest,
                      stringify: Influx.Row -> string, digest: string -> Option<string>,
                      machineIP: string, exportedAt: string, clock: seq<int>)
    requires id in jobs && |clock| >= 3
    ensures var patches := RunPatches(id, req, Success([]), stringify, digest, machineIP, exportedAt);
      var job := Replay(jobs, id, patches, clock)[id];
      && job.state == Done && job.progress == 1.0 && job.rowCount == 0 && job.status == Some(NoDataStatus)
      && job.data == jobs[id].data && job.sha256 == jobs[id].sha256
  {
    var patches := RunPatches(id, req, Success([]), stringify, digest, machineIP, exportedAt);
    ReplayTwo(jobs, id, patches, clock);
  }

  /**
    * N > 0 rows with a computed digest: `done`, progress 1, N rows, the file name
    * `<id>.jsonl`, the digest of the canonical body prefixed with `0x`, the
    * metadata and the rows themselves.
    */
  lemma CompletedOutcome(jobs: map<string, ExportJob>, id: string, req: ExportRequest, rows: seq<Influx.Row>,
                         stringify: Influx.Row -> string, digest: string -> Option<string>,
                         machineIP: string, exportedAt: string, clock: seq<int>)
    requires id in jobs && |clock| >= 3 && |rows| > 0
    requires digest(Canonical(rows, stringify)).Some?
    ensures var patches := RunPatches(id, req, Success(rows), stringify, digest, machineIP, exportedAt);
      var job := Replay(jobs, id, patches, clock)[id];
      && job.state == Done && job.progress == 1.0 && job.rowCount == |rows|
      && job.status == Some(CompletedStatus)
      && job.outputFile == Some(id + ".jsonl")
      && job.sha256 == Some("0x" + digest(Canonical(rows, stringify)).value)
      && job.metadata == Some(ExportMetadata(machineIP, exportedAt, |rows|, req.measurement, FiltersOrEmpty(req)))
      && job.data == Some(rows)
  {
    var patches := RunPatches(id, req, Success(rows), stringify, digest, machineIP, exportedAt);
    ReplayThree(jobs, id, patches, clock);
  }

  /**
    * A digest that throws degrades instead of failing: the job still ends `done`
    * with the rows attached, but its digest is the sentinel and no metadata is added.
    */
  lemma DigestFailureOutcome(jobs: map<string, ExportJob>, id: string, req: ExportRequest, rows: seq<Influx.Row>,
                             stringify: Influx.Row -> string, digest: string -> Option<string>,
                             machineIP: string, exportedAt: string, clock: seq<int>)
    requires id in jobs && |clock| >= 3 && |rows| > 0
    requires digest(Canonical(rows, stringify)).None?
    ensures var patches := RunPatches(id, req, Success(rows), stringify, digest, machineIP, exportedAt);
      var job := Replay(jobs, id, patches, clock)[id];
      && job.state == Done && job.progress == 1.0 && job.rowCount == |rows|
      && job.outputFile == Some(id + ".jsonl")
      && job.sha256 == Some(DigestUnavailable)
      && job.metadata == jobs[id].metadata
      && job.data == Some(rows)
  {
    var patches := RunPatches(id, req, Success(rows), stringify, digest, machineIP, exportedAt);
    ReplayThree(jobs, id, patches, clock);
  }

  /** Mid-run, once the query is dispatched and before the source answers, a poll sees progress 0.2. */
  lemma DispatchedSnapshot(jobs: map<string, ExportJob>, id: string, now: int)
    requires id in jobs
    ensures Update(jobs, id, QueryingPatch, now)[id].progress == 0.2
    ensures Update(jobs, id, QueryingPatch, now)[id].state == jobs[id].state
  {
  }

  /* ---------------- /status and /download ---------------- */

  /** Source: bulk.ts `/status/:jobId`: the stored record as it is, or not found. */
  function Status(jobs: map<string, ExportJob>, id: string): (r: StatusResponse)
    ensures r.JobNotFound? <==> id !in jobs
    ensures r.Snapshot? ==> r.job == jobs[id]
  {
    if id in jobs then Snapshot(jobs[id]) else JobNotFound
  }

  /** Source: bulk.ts `/download/:jobId`: the gate on state and data, the file name and the body. */
  function Download(job: Option<ExportJob>, stringify: Influx.Row -> string): (r: DownloadResponse)
    ensures r.NotReadyOrNotFound? <==> job.None? || job.value.state != Done
    ensures r.NoDataAvailable? <==> job.Some? && job.value.state == Done && (job.value.data.None? || |job.value.data.value| == 0)
  {
    if job.None? || job.value.state != Done then NotReadyOrNotFound
    else if job.value.data.None? || |job.value.data.value| == 0 then NoDataAvailable
    else
      var filename := if Truthy(job.value.outputFile) then job.value.outputFile.value else job.value.id + ".jsonl";
      Attachment(filename, Canonical(job.value.data.value, stringify))
  }

  /** The file name is the recorded output file, or `<id>.jsonl` when none (or an empty one) is recorded. */
  lemma DownloadFilename(job: ExportJob, stringify: Influx.Row -> string)
    requires job.state == Done && job.data.Some? && |job.data.value| > 0
    ensures Download(Some(job), stringify).Attachment?
    ensures job.outputFile.None? ==> Download(Some(job), stringify).filename == job.id + ".jsonl"
    ensures job.outputFile.Some? && job.outputFile.value != "" ==> Download(Some(job), stringify).filename == job.outputFile.value
    ensures job.outputFile == Some("") ==> Download(Some(job), stringify).filename == job.id + ".jsonl"
  {
  }

  /**
    * After a completed run of N > 0 rows, the download serves `<id>.jsonl` with
    * exactly the bytes that were digested, so recomputing the digest of the body
    * gives back the stored hash.
    */
  lemma DownloadIsHashedBody(jobs: map<string, ExportJob>, id: string, req: ExportRequest, rows: seq<Influx.Row>,
                             stringify: Influx.Row -> string, digest: string -> Option<string>,
                             machineIP: string, exportedAt: string, clock: seq<int>)
    requires id in jobs && jobs[id].id == id && |clock| >= 3 && |rows| > 0
    requires digest(Canonical(rows, stringify)).Some?
    ensures var final := Replay(jobs, id, RunPatches(id, req, Success(rows), stringify, digest, machineIP, exportedAt), clock);
      var r := Download(Some(final[id]), stringify);
      && r == Attachment(id + ".jsonl", Canonical(rows, stringify))
      && digest(r.body).Some?
      && final[id].sha256 == Some("0x" + digest(r.body).value)
  {
    CompletedOutcome(jobs, id, req, rows, stringify, digest, machineIP, exportedAt, clock);
    var patches := RunPatches(id, req, Success(rows), stringify, digest, machineIP, exportedAt);
    ReplayThree(jobs, id, patches, clock);
  }

  /** A run that found no rows, on a job that held no data, downloads as "no data". */
  lemma NoRowsDownload(jobs: map<string, ExportJob>, id: string, req: ExportRequest,
                       stringify: Influx.Row -> string, digest: string -> Option<string>,
                       machineIP: string, exportedAt: string, clock: seq<int>)
    requires id in jobs && jobs[id].data.None? && |clock| >= 3
    ensures var final := Replay(jobs, id, RunPatches(id, req, Success([]), stringify, digest, machineIP, exportedAt), clock);
      Download(Some(final[id]), stringify) == NoDataAvailable
  {
    NoRowsOutcome(jobs, id, req, stringify, digest, machineIP, exportedAt, clock);
  }

  /** A failed run is never downloadable, and neither is an unknown job. */
  lemma FailedRunNotReady(jobs: map<string, ExportJob>, id: string, req: ExportRequest, message: string,
                          stringify: Influx.Row -> string, digest: string -> Option<string>,
                          machineIP: string, exportedAt: string, clock: seq<int>)
    requires id in jobs && |clock| >= 3
    ensures var final := Replay(jobs, id, RunPatches(id, req, Failure(message), stringify, digest, machineIP, exportedAt), clock);
      Download(Some(final[id]), stringify) == NotReadyOrNotFound
    ensures Download(None, stringify) == NotReadyOrNotFound
  {
    SourceFailureOutcome(jobs, id, req, message, stringify, digest, machineIP, exportedAt, clock);
  }

  /**
    * The canonical body is line-delimited: when no serialized row holds a newline,
    * splitting the body on newlines gives one line per row, in order, and the
    * empty text after the trailing newline.
    */
  lemma CanonicalLines(rows: seq<Influx.Row>, stringify: Influx.Row -> string)
    requires |rows| > 0
    requires forall k :: 0 <= k < |rows| ==> '\n' !in stringify(rows[k])
    ensures Split(Canonical(rows, stringify), '\n') == Lines(rows, stringify) + [""]
  {
    var lines := Lines(rows, stringify);
    SplitTrailing(Join(lines, '\n'), '\n');
    SplitJoin(lines, '\n');
  }

  /**
    * The whole `/export` story for a fresh id: the id is accepted, the job runs,
    * and with N > 0 rows and a digest the store ends with that job downloadable
    * as exactly the digested body, every other job untouched.
    */
  lemma ExportThenDownload(jobs: map<string, ExportJob>, freshId: string, req: ExportRequest,
                           configuredBucket: Option<string>, source: string -> Result<seq<Influx.Row>, string>,
                           stringify: Influx.Row -> string, digest: string -> Option<string>,
                           machineIP: string, exportedAt: string, createdAt: int, startedAt: int, clock: seq<int>)
    requires freshId !in jobs && |clock| >= 3
    requires Fetch(req, configuredBucket, source).Success? && |Fetch(req, configuredBucket, source).value| > 0
    requires digest(Canonical(Fetch(req, configuredBucket, source).value, stringify)).Some?
    ensures var started := jobs[freshId := Merge(NewJob(freshId, createdAt), RunningPatch, startedAt)];
      var rows := Fetch(req, configuredBucket, source).value;
      var final := Replay(started, freshId, RunPatches(freshId, req, Success(rows), stringify, digest, machineIP, exportedAt), clock);
      && final.Keys == jobs.Keys + {freshId}
      && (forall other :: other in jobs ==> final[other] == jobs[other])
      && Download(Some(final[freshId]), stringify) == Attachment(freshId + ".jsonl", Canonical(rows, stringify))
  {
    var started := jobs[freshId := Merge(NewJob(freshId, createdAt), RunningPatch, startedAt)];
    var rows := Fetch(req, configuredBucket, source).value;
    var patches := RunPatches(freshId, req, Success(rows), stringify, digest, machineIP, exportedAt);
    assert started[freshId].id == freshId;
    ReplayFreshJob(jobs, freshId, started[freshId], patches, clock);
    DownloadIsHashedBody(started, freshId, req, rows, stringify, digest, machineIP, exportedAt, clock);
  }

  /** Replaying patches on a newly added job adds that one key and leaves every earlier job alone. */
  lemma ReplayFreshJob(jobs: map<string, ExportJob>, freshId: string, job: ExportJob, patches: seq<JobPatch>, clock: seq<int>)
    requires freshId !in jobs && |patches| <= |clock|
    ensures var final := Replay(jobs[freshId := job], freshId, patches, clock);
      && final.Keys == jobs.Keys + {freshId}
      && forall other :: other in jobs ==> final[other] == jobs[other]
  {
    var started := jobs[freshId := job];
    ReplayKeepsOthers(started, freshId, patches, clock);
    forall other | other in jobs
      ensures Replay(started, freshId, patches, clock)[other] == jobs[other]
    {
      assert started[other] == jobs[other];
    }
  }
}
