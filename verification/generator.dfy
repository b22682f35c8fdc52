/**
 The image-to-mesh generator job handler as a pure function. The model
 inference, the image decoder, the STL export, the object store and the
 webhook are answers read from an `Effects` oracle; the handler returns the
 effects it attempted and how the invocation ended.

 Unlike the part-splitter, this handler has no fallback job id (a missing id
 is rendered as `None` in the storage keys), clamps the octree resolution at
 256, and posts the webhook unconditionally: an unset `WEBHOOK_URL` makes
 `requests.post` raise after everything else has been uploaded.
 */
module Generator {
  import opened JobTypes
  import opened PyText

  const NoUserMessage := "No user ID provided"
  const NoImageMessage := "No image provided"
  const DefaultBucket := "chuck-assets"
  const DefaultOctree := 256
  const MaxOctree := 256
  const InferenceSteps := 10
  const NumChunks := 60000
  const Seed := 12355
  const UrlExpiry := 3600
  const WebhookTimeout := 10

  /** Process configuration read from the environment at import time. */
  datatype Config = Config(bucket: string, webhookUrl: Option<string>, webhookSecret: Option<string>)

  /** `os.environ.get` with its defaults: a variable that is set wins even
      when it is empty. */
  function ConfigFromEnv(env: map<string, string>): (c: Config)
    ensures "AWS_BUCKET_NAME" in env ==> c.bucket == env["AWS_BUCKET_NAME"]
    ensures "AWS_BUCKET_NAME" !in env ==> c.bucket == DefaultBucket
    ensures c.webhookUrl.Some? <==> "WEBHOOK_URL" in env
    ensures c.webhookUrl.Some? ==> c.webhookUrl.value == env["WEBHOOK_URL"]
    ensures c.webhookSecret.Some? <==> "WEBHOOK_SECRET" in env
    ensures c.webhookSecret.Some? ==> c.webhookSecret.value == env["WEBHOOK_SECRET"]
  {
    Config(
      if "AWS_BUCKET_NAME" in env then env["AWS_BUCKET_NAME"] else DefaultBucket,
      if "WEBHOOK_URL" in env then Some(env["WEBHOOK_URL"]) else None,
      if "WEBHOOK_SECRET" in env then Some(env["WEBHOOK_SECRET"]) else None)
  }

  /** The fields of `job['input']` the handler reads; `None` is an absent key. */
  datatype JobInput = JobInput(userId: Option<string>, imageBase64: Option<string>, octree: Option<IntArg>)

  datatype Job = Job(id: Option<string>, input: JobInput)

  /** The answers the outside world gives, in the order the handler asks. */
  datatype Effects = Effects(
    decode: string -> Option<seq<byte>>,   // base64.b64decode
    imageOk: bool,                         // PIL opens and converts the bytes
    imageUploadOk: bool,                   // saving the PNG and uploading it
    inferOk: bool,                         // the shape pipeline
    exportOk: bool,                        // trimesh export to the STL file
    stlUploadOk: bool,
    imageUrl: string,                      // presigned URL minted for the image
    stlUrl: string,                        // presigned URL minted for the STL
    webhookOk: bool)                       // POST answered 2xx in time

  /** The success body, also the webhook payload. `jobId` is `job.get('id')`,
      `null` when the job has no id. */
  datatype Body = Body(status: string, jobId: Option<string>, imageUrl: string, stlUrl: string, userId: string)

  datatype StoredObject = ImageObject | StlObject

  /** One attempted external effect. */
  datatype Event =
    | UploadImage(bucket: string, key: string)
    | Infer(octree: int, steps: nat, chunks: nat, seed: nat)
    | ExportStl
    | UploadStl(bucket: string, key: string)
    | Presign(obj: StoredObject, key: string, expires: nat)
    | Webhook(url: string, authToken: Option<string>, payload: Body, timeout: nat)

  /** The exceptions that can escape the handler. */
  datatype Fault =
    | BadBase64           // b64decode raised
    | BadImage            // PIL could not open the bytes
    | ImageUploadFailed
    | BadOctree           // int(octree) raised
    | InferFailed
    | ExportFailed
    | StlUploadFailed
    | NoWebhookUrl        // requests.post(None or "") raised
    | WebhookFailed       // raise_for_status

  datatype Run = Run(trace: seq<Event>, outcome: Outcome<Body, Fault>)

  /** `f"{file_id}"`: the id itself, or `None` when the job has none. */
  function IdText(id: Option<string>): (r: string)
    ensures id.Some? ==> r == id.value
    ensures id.None? ==> r == "None"
  {
    match id
    case Some(s) => s
    case None => "None"
  }

  /** `f"{folder}/{file_id}{ext}"`: the id's text sits between the folder
      and the extension, and can be read back from the key. */
  function ObjectKey(folder: string, id: Option<string>, ext: string): (k: string)
    ensures StartsWith(k, folder + "/") && EndsWith(k, ext)
    ensures |k| == |folder| + 1 + |IdText(id)| + |ext|
    ensures k[|folder| + 1..|k| - |ext|] == IdText(id)
  {
    var k := folder + "/" + IdText(id) + ext;
    assert k[|folder| + 1..|k| - |ext|] == IdText(id);
    k
  }

  /** Where the input image is stored. */
  function ImageKey(id: Option<string>): string {
    ObjectKey("images", id, ".png")
  }

  /** Where the generated STL is stored. */
  function StlKey(id: Option<string>): string {
    ObjectKey("models", id, ".stl")
  }

  /** `min(int(input_data.get('octree', 256)), 256)`; `None` when `int` raises. */
  function Octree(arg: Option<IntArg>): (r: Option<int>)
    ensures r.None? <==> arg == Some(NotAnInt)
    ensures r.Some? ==> r.value <= MaxOctree
    ensures arg.None? ==> r == Some(DefaultOctree)
    ensures arg.Some? && arg.value.Int? ==>
      r.Some? && (r.value == arg.value.n || r.value == MaxOctree) && r.value <= arg.value.n
  {
    match arg
    case None => Some(DefaultOctree)
    case Some(NotAnInt) => None
    case Some(Int(n)) => Some(if n < MaxOctree then n else MaxOctree)
  }

  /** The whole handler. */
  function Handler(job: Job, cfg: Config, fx: Effects): (r: Run)
    ensures r.outcome.Returned? ==>
      && Truthy(job.input.userId)
      && r.outcome.body == Body("success", job.id, fx.imageUrl, fx.stlUrl, job.input.userId.value)
  {
    var inp := job.input;
    if !Truthy(inp.userId) then Run([], ErrorDict(NoUserMessage))
    else if !Truthy(inp.imageBase64) then Run([], ErrorDict(NoImageMessage))
    else if fx.decode(inp.imageBase64.value).None? then Run([], Raised(BadBase64))
    else if !fx.imageOk then Run([], Raised(BadImage))
    else Generate(job.id, inp.userId.value, inp.octree, cfg, fx)
  }

  /** Everything after the image has been decoded: upload, inference, export,
      upload, presigning and the webhook. */
  function Generate(id: Option<string>, userId: string, octree: Option<IntArg>, cfg: Config, fx: Effects): (r: Run)
    ensures r.outcome.Returned? ==> r.outcome.body == Body("success", id, fx.imageUrl, fx.stlUrl, userId)
  {
    var imageUp := UploadImage(cfg.bucket, ImageKey(id));
    if !fx.imageUploadOk then Run([imageUp], Raised(ImageUploadFailed))
    else match Octree(octree)
      case None => Run([imageUp], Raised(BadOctree))
      case Some(oct) =>
        var infer := Infer(oct, InferenceSteps, NumChunks, Seed);
        if !fx.inferOk then Run([imageUp, infer], Raised(InferFailed))
        else if !fx.exportOk then Run([imageUp, infer, ExportStl], Raised(ExportFailed))
        else
          var stlUp := UploadStl(cfg.bucket, StlKey(id));
          if !fx.stlUploadOk then Run([imageUp, infer, ExportStl, stlUp], Raised(StlUploadFailed))
          else
            var signed := [imageUp, infer, ExportStl, stlUp,
                           Presign(ImageObject, ImageKey(id), UrlExpiry), Presign(StlObject, StlKey(id), UrlExpiry)];
            var body := Body("success", id, fx.imageUrl, fx.stlUrl, userId);
            if !Truthy(cfg.webhookUrl) then Run(signed, Raised(NoWebhookUrl))
            else
              var hook := Webhook(cfg.webhookUrl.value, cfg.webhookSecret, body, WebhookTimeout);
              Run(signed + [hook], if fx.webhookOk then Returned(body) else Raised(WebhookFailed))
  }
}
