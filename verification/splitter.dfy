/**
 The part-splitter job handler as a pure function. Every external effect
 (filesystem probes, downloads, subprocesses, uploads, the webhook) is an answer
 read from an `Effects` oracle, and the handler returns the trace of effects it
 attempted together with how the invocation ended.

 The `try`/`finally` of the handler is modelled literally: before the scratch
 directory exists nothing is cleaned up; once it exists, every exit (the success
 return, the "no mesh" error return, and every raised fault) appends `Cleanup`.
 */
module Splitter {
  import opened JobTypes
  import opened PyText
  import opened PartField
  import opened SplitterStorage

  const NoUserMessage := "No user ID provided"
  const NoMeshMessage := "No mesh provided (stl_presigned_url | mesh_url | mesh_base64)"
  const DefaultFilename := "input.stl"
  const DefaultMode := "agglo_knn"
  const DefaultMaxClusters := 20
  const DefaultBucket := "chuck-assets"
  const ScratchParent := "/tmp"
  const UrlExpiry := 3600
  const WebhookTimeout := 15

  /** Process configuration read from the environment at import time. */
  datatype Config = Config(
    bucket: string,
    pfRoot: string,
    pfCheckpoint: string,
    webhookUrl: Option<string>,
    webhookSecret: Option<string>)

  function EnvGet(env: map<string, string>, name: string): Option<string> {
    if name in env then Some(env[name]) else None
  }

  /** `os.environ.get` / `os.getenv` with their defaults: a variable that is
      set wins even when it is empty; only an unset one falls back. */
  function ConfigFromEnv(env: map<string, string>): (c: Config)
    ensures "AWS_BUCKET_NAME" in env ==> c.bucket == env["AWS_BUCKET_NAME"]
    ensures "AWS_BUCKET_NAME" !in env ==> c.bucket == DefaultBucket
    ensures "PF_ROOT" in env ==> c.pfRoot == env["PF_ROOT"]
    ensures "PF_ROOT" !in env ==> c.pfRoot == DefaultRoot
    ensures "PF_CKPT" in env ==> c.pfCheckpoint == env["PF_CKPT"]
    ensures "PF_CKPT" !in env ==> c.pfCheckpoint == DefaultCheckpoint
    ensures c.webhookUrl.Some? <==> "WEBHOOK_URL" in env
    ensures c.webhookUrl.Some? ==> c.webhookUrl.value == env["WEBHOOK_URL"]
    ensures c.webhookSecret.Some? <==> "WEBHOOK_SECRET" in env
    ensures c.webhookSecret.Some? ==> c.webhookSecret.value == env["WEBHOOK_SECRET"]
  {
    Config(
      EnvGet(env, "AWS_BUCKET_NAME").GetOr(DefaultBucket),
      EnvGet(env, "PF_ROOT").GetOr(DefaultRoot),
      EnvGet(env, "PF_CKPT").GetOr(DefaultCheckpoint),
      EnvGet(env, "WEBHOOK_URL"),
      EnvGet(env, "WEBHOOK_SECRET"))
  }

  /** The fields of `job['input']` the handler reads; `None` is an absent key. */
  datatype JobInput = JobInput(
    userId: Option<string>,
    stlPresignedUrl: Option<string>,
    meshUrl: Option<string>,
    meshBase64: Option<string>,
    filename: Option<string>,
    mode: Option<string>,
    maxNumClusters: Option<IntArg>)

  datatype Job = Job(id: Option<string>, input: JobInput)

  /** The answers the outside world gives, in the order the handler asks. */
  datatype Effects = Effects(
    pathsOk: bool,                               // ensure_paths finds PF_ROOT and PF_CKPT
    uuid: string,                                // str(uuid.uuid4())
    scratchName: string,                         // random part of mkdtemp's name
    decode: string -> Option<seq<byte>>,         // base64.b64decode
    fetchOk: bool,                               // urlretrieve
    writeOk: bool,                               // open(path, "wb") and write
    extractOk: bool,                             // extraction subprocess exit status
    clusterOk: bool,                             // clustering subprocess exit status
    meshUploadOk: bool,
    meshUrl: string,                             // presigned URL minted for the mesh
    archiveExists: bool,                         // a previous <dump>.zip is present
    archiveOk: bool,                             // make_archive
    archiveUploadOk: bool,
    archiveUrl: string,                          // presigned URL minted for the archive
    webhookOk: bool)                             // POST answered 2xx in time

  datatype Artifact = MeshArtifact | ArchiveArtifact

  /** The success body, also the webhook payload; its status is always "success". */
  datatype Body = Body(
    status: string,
    jobId: string,
    userId: string,
    inputMeshUrl: string,
    clusteringZipUrl: string,
    mode: string,
    maxNumClusters: int)

  /** One attempted external effect. */
  datatype Event =
    | AllocScratch(root: string)
    | Fetch(url: string, dest: string)
    | WriteMesh(dest: string, content: seq<byte>)
    | Extract(argv: seq<string>, cwd: string)
    | MakeDumpDir(path: string)
    | Cluster(argv: seq<string>, cwd: string)
    | Upload(artifact: Artifact, localPath: string, bucket: string, key: string, expires: nat)
    | Zip(op: FileOp)
    | Webhook(url: string, authToken: Option<string>, payload: Body, timeout: nat)
    | Cleanup(root: string)

  /** The exceptions that can escape the handler. */
  datatype Fault =
    | PathsMissing        // RuntimeError from ensure_paths
    | BadClusterCount     // int(max_num_clusters) raised
    | ScratchFailed       // mkdtemp raised: the job id holds a `/`
    | BadBase64           // b64decode raised
    | NoContent           // download_to: "Provide url or content_bytes"
    | FetchFailed
    | WriteFailed         // open/write of the mesh raised, e.g. the path names a directory
    | ExtractFailed
    | BadMode             // partfield_clustering: unknown mode
    | ClusterFailed
    | MeshUploadFailed
    | ArchiveFailed
    | ArchiveUploadFailed
    | WebhookFailed

  datatype Run = Run(trace: seq<Event>, outcome: Outcome<Body, Fault>)

  /** A stage's effects and the fault that stopped it, if any. */
  datatype Step = Step(trace: seq<Event>, fault: Option<Fault>)

  /** `job.get('id') or str(uuid.uuid4())[:8]`. */
  function JobId(id: Option<string>, uuid: string): (r: string)
    ensures Truthy(id) ==> r == id.value
    ensures !Truthy(id) ==> StartsWith(uuid, r) && |r| == if |uuid| < 8 then |uuid| else 8
  {
    if Truthy(id) then id.value else uuid[..if |uuid| < 8 then |uuid| else 8]
  }

  /** `int(input.get('max_num_clusters', 20))`; `None` when `int` raises. */
  function ClusterBound(arg: Option<IntArg>): (r: Option<int>)
    ensures arg.None? ==> r == Some(DefaultMaxClusters)
    ensures r.None? <==> arg == Some(NotAnInt)
    ensures arg.Some? && arg.value.Int? ==> r == Some(arg.value.n)
  {
    match arg
    case None => Some(DefaultMaxClusters)
    case Some(Int(n)) => Some(n)
    case Some(NotAnInt) => None
  }

  /** Whether `mkdtemp` can create the scratch directory for a job id. It
      joins `/tmp` and `job_<id>_<random>`, so a `/` in the id names a file in a
      directory `/tmp/job_<head>` that does not exist, and `os.mkdir` raises
      `FileNotFoundError`. */
  predicate ScratchCreatable(jobId: string) {
    '/' !in jobId
  }

  /** `tempfile.mkdtemp(prefix=f"job_{id}_", dir="/tmp")`. */
  function ScratchRoot(jobId: string, scratchName: string): (r: string)
    ensures StartsWith(r, ScratchParent + "/job_" + jobId + "_")
    ensures EndsWith(r, scratchName)
  {
    PathJoin(ScratchParent, "job_" + jobId + "_" + scratchName)
  }

  // ----- acquiring the mesh -----

  /** Which mesh source the handler uses. */
  datatype MeshSource = PresignedUrl(url: string) | MeshUrl(url: string) | InlineBase64(payload: string) | NoMesh

  /** The `if`/`elif` chain over the three source fields. */
  function SelectSource(presigned: Option<string>, meshUrl: Option<string>, base64: Option<string>): MeshSource {
    if Truthy(presigned) then PresignedUrl(presigned.value)
    else if Truthy(meshUrl) then MeshUrl(meshUrl.value)
    else if Truthy(base64) then InlineBase64(base64.value)
    else NoMesh
  }

  /** Position of a selected source in the precedence order. */
  function SourceRank(s: MeshSource): nat {
    match s
    case PresignedUrl(_) => 0
    case MeshUrl(_) => 1
    case InlineBase64(_) => 2
    case NoMesh => 3
  }

  function SourceText(s: MeshSource): string
    requires !s.NoMesh?
  {
    match s
    case PresignedUrl(u) => u
    case MeshUrl(u) => u
    case InlineBase64(p) => p
  }

  /** Precedence: the selected source is the first truthy field of
      `[stl_presigned_url, mesh_url, mesh_base64]`, whatever follows it, and
      there is no selection exactly when all three are falsy. */
  lemma SelectSourceIsFirstTruthy(presigned: Option<string>, meshUrl: Option<string>, base64: Option<string>)
    ensures var s := SelectSource(presigned, meshUrl, base64);
      var fields := [presigned, meshUrl, base64];
      && (s.NoMesh? <==> forall i :: 0 <= i < 3 ==> !Truthy(fields[i]))
      && (!s.NoMesh? ==>
            && Truthy(fields[SourceRank(s)])
            && SourceText(s) == fields[SourceRank(s)].value
            && forall i :: 0 <= i < SourceRank(s) ==> !Truthy(fields[i]))
  {
    var fields := [presigned, meshUrl, base64];
    assert fields[0] == presigned && fields[1] == meshUrl && fields[2] == base64;
  }

  /** `download_to(path, url=..., content_bytes=...)`: a truthy URL is fetched,
      otherwise non-empty bytes are written, otherwise `ValueError`. */
  function DownloadTo(path: string, url: Option<string>, content: Option<seq<byte>>, fetchOk: bool, writeOk: bool): (r: Step)
    ensures |r.trace| <= 1
    ensures r.fault.None? ==> |r.trace| == 1 && (r.trace[0].Fetch? || r.trace[0].WriteMesh?) && r.trace[0].dest == path
    ensures Truthy(url) ==> r.trace == [Fetch(url.value, path)] && (r.fault.None? <==> fetchOk)
    ensures !Truthy(url) && content.Some? && content.value != [] ==>
      r.trace == [WriteMesh(path, content.value)] && (r.fault.None? <==> writeOk)
    ensures r.fault == Some(NoContent) <==> !Truthy(url) && (content.None? || content.value == [])
    ensures forall e :: e in r.trace && e.WriteMesh? ==> e.content != []
  {
    if Truthy(url) then Step([Fetch(url.value, path)], if fetchOk then None else Some(FetchFailed))
    else if content.Some? && content.value != [] then Step([WriteMesh(path, content.value)], if writeOk then None else Some(WriteFailed))
    else Step([], Some(NoContent))
  }

  /** Materialises the selected source at `meshPath`. An inline payload that
      does not decode raises; one that decodes to no bytes is refused by
      `download_to`, so an empty mesh file is never written. */
  function Acquire(src: MeshSource, meshPath: string, fx: Effects): (r: Step)
    requires !src.NoMesh?
    ensures r.fault.None? ==> |r.trace| == 1 && (r.trace[0].Fetch? || r.trace[0].WriteMesh?) && r.trace[0].dest == meshPath
    ensures !src.InlineBase64? && src.url != "" ==> r.trace == [Fetch(src.url, meshPath)] && (r.fault.None? <==> fx.fetchOk)
    ensures src.InlineBase64? && fx.decode(src.payload).None? ==> r == Step([], Some(BadBase64))
    ensures src.InlineBase64? && fx.decode(src.payload) == Some([]) ==> r == Step([], Some(NoContent))
    ensures src.InlineBase64? && fx.decode(src.payload).Some? && fx.decode(src.payload).value != [] ==>
      r.trace == [WriteMesh(meshPath, fx.decode(src.payload).value)] && (r.fault.None? <==> fx.writeOk)
  {
    match src
    case PresignedUrl(u) => DownloadTo(meshPath, Some(u), None, fx.fetchOk, fx.writeOk)
    case MeshUrl(u) => DownloadTo(meshPath, Some(u), None, fx.fetchOk, fx.writeOk)
    case InlineBase64(p) =>
      match fx.decode(p)
      case None => Step([], Some(BadBase64))
      case Some(bytes) => DownloadTo(meshPath, None, Some(bytes), fx.fetchOk, fx.writeOk)
  }

  // ----- notifying -----

  /** The webhook block: posted only when `WEBHOOK_URL` is truthy, carrying
      `X-Auth-Token` only when the secret is truthy; a non-2xx answer raises. */
  function Notify(cfg: Config, body: Body, ok: bool): (r: Step)
    ensures |r.trace| <= 1
    ensures |r.trace| == 1 <==> Truthy(cfg.webhookUrl)
    ensures |r.trace| == 1 ==>
      && r.trace[0].Webhook?
      && r.trace[0].url == cfg.webhookUrl.value
      && r.trace[0].payload == body
      && (r.trace[0].authToken.Some? <==> Truthy(cfg.webhookSecret))
      && (r.trace[0].authToken.Some? ==> r.trace[0].authToken == cfg.webhookSecret)
    ensures r.fault.Some? <==> Truthy(cfg.webhookUrl) && !ok
  {
    if Truthy(cfg.webhookUrl) then
      var token := if Truthy(cfg.webhookSecret) then cfg.webhookSecret else None;
      Step([Webhook(cfg.webhookUrl.value, token, body, WebhookTimeout)], if ok then None else Some(WebhookFailed))
    else Step([], None)
  }

  // ----- the pipeline -----

  /** Uploads, archive and webhook, once clustering has succeeded. */
  function Deliver(cfg: Config, fx: Effects, jobId: string, userId: string, filename: string,
                   mode: string, maxK: int, meshPath: string, dumpDir: string): (r: Run)
    ensures r.outcome.Returned? ==> r.outcome.body == Body("success", jobId, userId, fx.meshUrl, fx.archiveUrl, mode, maxK)
  {
    var meshKey := MeshKey(jobId, filename);
    var meshUp := Upload(MeshArtifact, meshPath, cfg.bucket, meshKey, UrlExpiry);
    if !fx.meshUploadOk then Run([meshUp], Raised(MeshUploadFailed))
    else
      var plan := ZipDir(dumpDir, fx.archiveExists);
      var zipping := [meshUp] + ZipEvents(plan.ops);
      if !fx.archiveOk then Run(zipping, Raised(ArchiveFailed))
      else
        var archiveUp := Upload(ArchiveArtifact, plan.archivePath, cfg.bucket, ArchiveKey(jobId), UrlExpiry);
        if !fx.archiveUploadOk then Run(zipping + [archiveUp], Raised(ArchiveUploadFailed))
        else
          var body := Body("success", jobId, userId, fx.meshUrl, fx.archiveUrl, mode, maxK);
          var note := Notify(cfg, body, fx.webhookOk);
          Run(zipping + [archiveUp] + note.trace,
              if note.fault.Some? then Raised(note.fault.value) else Returned(body))
  }

  function ZipEvents(ops: seq<FileOp>): (r: seq<Event>)
    ensures |r| == |ops|
    ensures forall i :: 0 <= i < |ops| ==> r[i] == Zip(ops[i])
  {
    seq(|ops|, i requires 0 <= i < |ops| => Zip(ops[i]))
  }

  /** Extraction, then clustering, then delivery. */
  function Stages(cfg: Config, fx: Effects, jobId: string, userId: string, filename: string,
                  mode: string, maxK: int, dataDir: string, meshPath: string): (r: Run)
    ensures r.outcome.Returned? ==> r.outcome.body == Body("success", jobId, userId, fx.meshUrl, fx.archiveUrl, mode, maxK)
  {
    var ex := PartfieldInference(cfg.pfRoot, cfg.pfCheckpoint, jobId, dataDir, true);
    var cl := PartfieldClustering(cfg.pfRoot, jobId, dataDir, ex.featureRoot, mode, maxK);
    RunStages(cfg, fx, jobId, userId, filename, mode, maxK, meshPath, ex.argv, cl)
  }

  /** The sequencing of the two subprocesses and delivery, given the
      extraction argv and the clustering step the builders produced. The
      clustering step is only taken once extraction has succeeded. */
  function RunStages(cfg: Config, fx: Effects, jobId: string, userId: string, filename: string,
                     mode: string, maxK: int, meshPath: string, extractArgv: seq<string>, cl: ClusterStep): (r: Run)
    ensures r.outcome.Returned? ==> r.outcome.body == Body("success", jobId, userId, fx.meshUrl, fx.archiveUrl, mode, maxK)
  {
    var extract := Extract(extractArgv, cfg.pfRoot);
    if !fx.extractOk then Run([extract], Raised(ExtractFailed))
    else
      var before := [extract, MakeDumpDir(cl.dumpDir)];
      if cl.argv.None? then Run(before, Raised(BadMode))
      else
        var cluster := Cluster(cl.argv.value, cfg.pfRoot);
        if !fx.clusterOk then Run(before + [cluster], Raised(ClusterFailed))
        else
          var rest := Deliver(cfg, fx, jobId, userId, filename, mode, maxK, meshPath, cl.dumpDir);
          Run(before + [cluster] + rest.trace, rest.outcome)
  }

  /** The body of the `try` after the scratch directory exists. */
  function Pipeline(cfg: Config, fx: Effects, jobId: string, inp: JobInput, filename: string,
                    mode: string, maxK: int, root: string): (r: Run)
    requires Truthy(inp.userId)
    ensures r.outcome.Returned? ==> r.outcome.body == Body("success", jobId, inp.userId.value, fx.meshUrl, fx.archiveUrl, mode, maxK)
  {
    var dataDir := PathJoin(root, "data");
    var meshPath := PathJoin(dataDir, filename);
    var src := SelectSource(inp.stlPresignedUrl, inp.meshUrl, inp.meshBase64);
    if src.NoMesh? then Run([], ErrorDict(NoMeshMessage))
    else
      Then(Acquire(src, meshPath, fx), Stages(cfg, fx, jobId, inp.userId.value, filename, mode, maxK, dataDir, meshPath))
  }

  /** A step followed by the rest of the run, which only happens when the
      step succeeded; a failed step's fault propagates. */
  function Then(first: Step, rest: Run): Run {
    if first.fault.Some? then Run(first.trace, Raised(first.fault.value))
    else Run(first.trace + rest.trace, rest.outcome)
  }

  /** The whole handler. */
  function Handler(job: Job, cfg: Config, fx: Effects): (r: Run)
    ensures r.outcome.Returned? ==>
      && r.outcome.body.status == "success"
      && r.outcome.body.jobId == JobId(job.id, fx.uuid)
      && Truthy(job.input.userId) && r.outcome.body.userId == job.input.userId.value
      && r.outcome.body.mode == job.input.mode.GetOr(DefaultMode)
      && Some(r.outcome.body.maxNumClusters) == ClusterBound(job.input.maxNumClusters)
      && r.outcome.body.inputMeshUrl == fx.meshUrl
      && r.outcome.body.clusteringZipUrl == fx.archiveUrl
  {
    if !fx.pathsOk then Run([], Raised(PathsMissing))
    else
      var jobId := JobId(job.id, fx.uuid);
      var inp := job.input;
      var filename := inp.filename.GetOr(DefaultFilename);
      var mode := inp.mode.GetOr(DefaultMode);
      match ClusterBound(inp.maxNumClusters)
      case None => Run([], Raised(BadClusterCount))
      case Some(maxK) =>
        if !Truthy(inp.userId) then Run([], ErrorDict(NoUserMessage))
        else
          if !ScratchCreatable(jobId) then Run([], Raised(ScratchFailed))
          else
            var root := ScratchRoot(jobId, fx.scratchName);
            InScratch(root, Pipeline(cfg, fx, jobId, inp, filename, mode, maxK, root))
  }

  /** The `try`/`finally` around the pipeline: the scratch directory is
      created first and removed after whatever the pipeline did, and the
      pipeline's outcome (returned value or exception) passes through. */
  function InScratch(root: string, p: Run): Run {
    Run([AllocScratch(root)] + p.trace + [Cleanup(root)], p.outcome)
  }
}
