/**
 Properties of the generator handler: the validation order, the octree clamp
 reaching the model, the storage-key layout (including the collision of jobs
 without an id), the effect order, and the unconditional webhook.
 */
module GeneratorProperties {
  import opened JobTypes
  import opened PyText
  import opened Generator

  /** The position of each kind of effect in the handler. */
  function Rank(e: Event): nat {
    match e
    case UploadImage(_, _) => 0
    case Infer(_, _, _, _) => 1
    case ExportStl => 2
    case UploadStl(_, _) => 3
    case Presign(obj, _, _) => if obj == ImageObject then 4 else 5
    case Webhook(_, _, _, _) => 6
  }

  /** Strictly increasing ranks: effects in handler order, each at most once. */
  ghost predicate Ordered(t: seq<Event>) {
    forall i, j :: 0 <= i < j < |t| ==> Rank(t[i]) < Rank(t[j])
  }

  /** The rank of the last effect attempted before a fault was raised. */
  function FaultRank(f: Fault): nat {
    match f
    case BadBase64 => 0
    case BadImage => 0
    case ImageUploadFailed => 0
    case BadOctree => 0
    case InferFailed => 1
    case ExportFailed => 2
    case StlUploadFailed => 3
    case NoWebhookUrl => 5
    case WebhookFailed => 6
  }

  /** A raised fault is reported by the stage that produced the last effect;
      only decoding faults come before any effect. */
  ghost predicate StopsAtFault(r: Run) {
    r.outcome.Raised? ==>
      if r.trace == [] then r.outcome.fault in {BadBase64, BadImage}
      else Rank(r.trace[|r.trace| - 1]) == FaultRank(r.outcome.fault)
  }

  /** Every effect the handler reaches succeeds. */
  predicate AllSucceed(job: Job, cfg: Config, fx: Effects) {
    && Truthy(job.input.userId)
    && Truthy(job.input.imageBase64)
    && fx.decode(job.input.imageBase64.value).Some?
    && fx.imageOk
    && fx.imageUploadOk
    && Octree(job.input.octree).Some?
    && fx.inferOk
    && fx.exportOk
    && fx.stlUploadOk
    && Truthy(cfg.webhookUrl)
    && fx.webhookOk
  }

  /** The handler passes validation and decoding and reaches the generation steps. */
  predicate Decoded(job: Job, fx: Effects) {
    && Truthy(job.input.userId)
    && Truthy(job.input.imageBase64)
    && fx.decode(job.input.imageBase64.value).Some?
    && fx.imageOk
  }

  /** Every storage effect targets the key its object kind prescribes. */
  ghost predicate KeysFollowLayout(t: seq<Event>, id: Option<string>) {
    && (forall i :: 0 <= i < |t| && t[i].UploadImage? ==> t[i].key == ImageKey(id))
    && (forall i :: 0 <= i < |t| && t[i].UploadStl? ==> t[i].key == StlKey(id))
    && (forall i :: 0 <= i < |t| && t[i].Presign? ==>
          t[i].key == (if t[i].obj == ImageObject then ImageKey(id) else StlKey(id)) && t[i].expires == UrlExpiry)
  }

  /** A prefix of the full success trace, which is what every run produces. */
  function FullTrace(id: Option<string>, userId: string, oct: int, cfg: Config, fx: Effects): seq<Event> {
    [UploadImage(cfg.bucket, ImageKey(id)), Infer(oct, InferenceSteps, NumChunks, Seed), ExportStl,
     UploadStl(cfg.bucket, StlKey(id)),
     Presign(ImageObject, ImageKey(id), UrlExpiry), Presign(StlObject, StlKey(id), UrlExpiry),
     Webhook(cfg.webhookUrl.GetOr(""), cfg.webhookSecret, Body("success", id, fx.imageUrl, fx.stlUrl, userId), WebhookTimeout)]
  }

  lemma FullTraceOrdered(id: Option<string>, userId: string, oct: int, cfg: Config, fx: Effects)
    ensures Ordered(FullTrace(id, userId, oct, cfg, fx))
  {
  }

  /** Every run of the generation steps is a prefix of the full trace: at most
      the first, and the webhook only when the URL is set. */
  lemma GeneratePrefix(id: Option<string>, userId: string, octree: Option<IntArg>, cfg: Config, fx: Effects)
    ensures var r := Generate(id, userId, octree, cfg, fx);
      var oct := Octree(octree).GetOr(DefaultOctree);
      && 1 <= |r.trace| <= 7
      && r.trace == FullTrace(id, userId, oct, cfg, fx)[..|r.trace|]
      && (|r.trace| == 7 <==> fx.imageUploadOk && Octree(octree).Some? && fx.inferOk && fx.exportOk && fx.stlUploadOk
                              && Truthy(cfg.webhookUrl))
      && (|r.trace| >= 2 ==> fx.imageUploadOk && Octree(octree).Some?)
  {
    var r := Generate(id, userId, octree, cfg, fx);
    var full := FullTrace(id, userId, Octree(octree).GetOr(DefaultOctree), cfg, fx);
    if !fx.imageUploadOk || Octree(octree).None? {
      assert r.trace == full[..1];
    } else if !fx.inferOk {
      assert r.trace == full[..2];
    } else if !fx.exportOk {
      assert r.trace == full[..3];
    } else if !fx.stlUploadOk {
      assert r.trace == full[..4];
    } else if !Truthy(cfg.webhookUrl) {
      assert r.trace == full[..6];
    } else {
      assert r.trace == full[..7];
    }
  }

  lemma OrderedPrefix(t: seq<Event>, n: nat)
    requires Ordered(t) && n <= |t|
    ensures Ordered(t[..n])
  {
    var p := t[..n];
    forall i, j | 0 <= i < j < |p|
      ensures Rank(p[i]) < Rank(p[j])
    {
      assert p[i] == t[i] && p[j] == t[j];
    }
  }

  lemma HandlerUnfold(job: Job, cfg: Config, fx: Effects)
    ensures var r := Handler(job, cfg, fx);
      && (!Truthy(job.input.userId) ==> r == Run([], ErrorDict(NoUserMessage)))
      && (Truthy(job.input.userId) && !Truthy(job.input.imageBase64) ==> r == Run([], ErrorDict(NoImageMessage)))
      && (Truthy(job.input.userId) && Truthy(job.input.imageBase64) && !Decoded(job, fx) ==> r.trace == [] && r.outcome.Raised?)
      && (Decoded(job, fx) ==> r == Generate(job.id, job.input.userId.value, job.input.octree, cfg, fx))
  {
  }

  /** The user id is checked before the image: with both missing, the answer
      is the user-id error, and nothing else happens. */
  lemma UserCheckedFirst(job: Job, cfg: Config, fx: Effects)
    requires !Truthy(job.input.userId)
    ensures Handler(job, cfg, fx) == Run([], ErrorDict(NoUserMessage))
  {
  }

  /** A missing image is answered with the error dictionary before any
      upload, inference or webhook. */
  lemma MissingImageHasNoEffects(job: Job, cfg: Config, fx: Effects)
    requires Truthy(job.input.userId) && !Truthy(job.input.imageBase64)
    ensures Handler(job, cfg, fx) == Run([], ErrorDict(NoImageMessage))
  {
  }

  /** The error dictionary is returned exactly for a missing user id or
      image, and then no effect took place; every other failure raises. */
  lemma ErrorDictOnlyForMissingFields(job: Job, cfg: Config, fx: Effects)
    ensures var r := Handler(job, cfg, fx);
      && (r.outcome.ErrorDict? <==> !Truthy(job.input.userId) || !Truthy(job.input.imageBase64))
      && (r.outcome.ErrorDict? ==> r.trace == [])
  {
    HandlerUnfold(job, cfg, fx);
    if Decoded(job, fx) {
      GeneratePrefix(job.id, job.input.userId.value, job.input.octree, cfg, fx);
    }
  }

  /** The handler's effects happen in order, each at most once: image upload,
      inference, STL export, STL upload, the two presigned URLs, the webhook. */
  lemma EffectsInOrder(job: Job, cfg: Config, fx: Effects)
    ensures Ordered(Handler(job, cfg, fx).trace)
  {
    HandlerUnfold(job, cfg, fx);
    if Decoded(job, fx) {
      var inp := job.input;
      var oct := Octree(inp.octree).GetOr(DefaultOctree);
      GeneratePrefix(job.id, inp.userId.value, inp.octree, cfg, fx);
      FullTraceOrdered(job.id, inp.userId.value, oct, cfg, fx);
      OrderedPrefix(FullTrace(job.id, inp.userId.value, oct, cfg, fx), |Handler(job, cfg, fx).trace|);
    }
  }

  /** A raised fault stops the handler at the stage that failed. The
      unparsable octree is only noticed after the image was uploaded. */
  lemma FaultStopsLaterStages(job: Job, cfg: Config, fx: Effects)
    ensures StopsAtFault(Handler(job, cfg, fx))
    ensures Handler(job, cfg, fx).outcome == Raised(BadOctree) ==> Handler(job, cfg, fx).trace == [UploadImage(cfg.bucket, ImageKey(job.id))]
  {
    HandlerUnfold(job, cfg, fx);
    if Decoded(job, fx) {
      GenerateStopsAtFault(job.id, job.input.userId.value, job.input.octree, cfg, fx);
    }
  }

  lemma GenerateStopsAtFault(id: Option<string>, userId: string, octree: Option<IntArg>, cfg: Config, fx: Effects)
    ensures StopsAtFault(Generate(id, userId, octree, cfg, fx))
    ensures Generate(id, userId, octree, cfg, fx).outcome == Raised(BadOctree) ==>
      Generate(id, userId, octree, cfg, fx).trace == [UploadImage(cfg.bucket, ImageKey(id))]
  {
    var r := Generate(id, userId, octree, cfg, fx);
    GeneratePrefix(id, userId, octree, cfg, fx);
    GenerateFaultIndex(id, userId, octree, cfg, fx);
    FullTraceRanks(id, userId, Octree(octree).GetOr(DefaultOctree), cfg, fx);
    if r.outcome.Raised? {
      assert r.trace[|r.trace| - 1] == FullTrace(id, userId, Octree(octree).GetOr(DefaultOctree), cfg, fx)[|r.trace| - 1];
    }
  }

  /** A fault raised by the generation steps is reported right after the
      effect of the same rank: the stages fail in trace order. */
  lemma GenerateFaultIndex(id: Option<string>, userId: string, octree: Option<IntArg>, cfg: Config, fx: Effects)
    ensures var r := Generate(id, userId, octree, cfg, fx);
      && (r.outcome.Raised? ==> FaultRank(r.outcome.fault) == |r.trace| - 1)
      && (r.outcome == Raised(BadOctree) ==> |r.trace| == 1)
  {
  }

  lemma FullTraceRanks(id: Option<string>, userId: string, oct: int, cfg: Config, fx: Effects)
    ensures var t := FullTrace(id, userId, oct, cfg, fx);
      forall k :: 0 <= k < |t| ==> Rank(t[k]) == k
  {
  }

  /** The job returns its success body exactly when every effect succeeds,
      including a configured webhook URL. */
  lemma SucceedsIffAllEffectsSucceed(job: Job, cfg: Config, fx: Effects)
    ensures Handler(job, cfg, fx).outcome.Returned? <==> AllSucceed(job, cfg, fx)
  {
    HandlerUnfold(job, cfg, fx);
  }

  /** On success every effect happened once, in order, and the webhook carried
      the returned body to the configured URL, with the secret as token. */
  lemma SuccessTrace(job: Job, cfg: Config, fx: Effects)
    requires AllSucceed(job, cfg, fx)
    ensures var r := Handler(job, cfg, fx);
      && r.outcome == Returned(Body("success", job.id, fx.imageUrl, fx.stlUrl, job.input.userId.value))
      && r.trace == FullTrace(job.id, job.input.userId.value, Octree(job.input.octree).value, cfg, fx)
      && r.trace[6] == Webhook(cfg.webhookUrl.value, cfg.webhookSecret, r.outcome.body, WebhookTimeout)
  {
    HandlerUnfold(job, cfg, fx);
  }

  /** The webhook is not optional: once both URLs are presigned, an unset or
      empty `WEBHOOK_URL` raises, and a set one is always posted to. */
  lemma WebhookIsUnconditional(job: Job, cfg: Config, fx: Effects)
    ensures var r := Handler(job, cfg, fx);
      |r.trace| >= 6 ==>
        && (!Truthy(cfg.webhookUrl) <==> r.outcome == Raised(NoWebhookUrl))
        && (Truthy(cfg.webhookUrl) ==> |r.trace| == 7 && r.trace[6].Webhook? && r.trace[6].url == cfg.webhookUrl.value)
  {
    HandlerUnfold(job, cfg, fx);
    if Decoded(job, fx) {
      GeneratePrefix(job.id, job.input.userId.value, job.input.octree, cfg, fx);
    }
  }

  /** The model is always asked for an octree resolution of at most 256: the
      requested one when it is lower, 256 otherwise or when none is given. */
  lemma InferenceOctreeBounded(job: Job, cfg: Config, fx: Effects)
    ensures var t := Handler(job, cfg, fx).trace;
      forall i :: 0 <= i < |t| && t[i].Infer? ==>
        && Octree(job.input.octree).Some?
        && t[i].octree == Octree(job.input.octree).value
        && t[i].octree <= MaxOctree
        && t[i].steps == InferenceSteps && t[i].chunks == NumChunks && t[i].seed == Seed
  {
    HandlerUnfold(job, cfg, fx);
    if Decoded(job, fx) {
      var inp := job.input;
      GeneratePrefix(job.id, inp.userId.value, inp.octree, cfg, fx);
    }
  }

  /** Objects go to `images/<id>.png` and `models/<id>.stl`, and the URLs are
      presigned for those keys for an hour. */
  lemma UploadKeys(job: Job, cfg: Config, fx: Effects)
    ensures KeysFollowLayout(Handler(job, cfg, fx).trace, job.id)
  {
    HandlerUnfold(job, cfg, fx);
    if Decoded(job, fx) {
      var inp := job.input;
      var oct := Octree(inp.octree).GetOr(DefaultOctree);
      GeneratePrefix(job.id, inp.userId.value, inp.octree, cfg, fx);
      var full := FullTrace(job.id, inp.userId.value, oct, cfg, fx);
      assert KeysFollowLayout(full, job.id);
      var t := Handler(job, cfg, fx).trace;
      assert forall i :: 0 <= i < |t| ==> t[i] == full[i];
    }
  }

  /** Jobs with an id never share keys; jobs of the two kinds never share a key. */
  lemma KeysInjective(a: string, b: string, x: Option<string>, y: Option<string>)
    ensures ImageKey(Some(a)) == ImageKey(Some(b)) ==> a == b
    ensures StlKey(Some(a)) == StlKey(Some(b)) ==> a == b
    ensures ImageKey(x) != StlKey(y)
  {
    if ImageKey(Some(a)) == ImageKey(Some(b)) {
      var k := ImageKey(Some(a));
      assert a == k[7..|k| - 4];
    }
    if StlKey(Some(a)) == StlKey(Some(b)) {
      var k := StlKey(Some(a));
      assert a == k[7..|k| - 4];
    }
    assert ImageKey(x)[0] == 'i' && StlKey(y)[0] == 'm';
  }

  /** With no fallback id, every job without one writes `images/None.png` and
      `models/None.stl`, the same keys as a job whose id is the string `None`. */
  lemma MissingIdKeysCollide()
    ensures ImageKey(None) == ImageKey(Some("None")) == "images/None.png"
    ensures StlKey(None) == StlKey(Some("None")) == "models/None.stl"
  {
  }
}
