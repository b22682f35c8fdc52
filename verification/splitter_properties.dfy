/**
 Properties of the part-splitter handler's trace and outcome: stages happen in
 one fixed order and each at most once, a fault stops every later stage, the
 scratch directory is released on every exit once it exists (and only then),
 and the job succeeds exactly when every effect it reaches succeeds.
 */
module SplitterProperties {
  import opened JobTypes
  import opened PyText
  import opened PartField
  import opened SplitterStorage
  import opened Splitter

  /** The position of each kind of effect in the pipeline. */
  function Rank(e: Event): nat {
    match e
    case AllocScratch(_) => 0
    case Fetch(_, _) => 1
    case WriteMesh(_, _) => 1
    case Extract(_, _) => 2
    case MakeDumpDir(_) => 3
    case Cluster(_, _) => 4
    case Upload(a, _, _, _, _) => if a == MeshArtifact then 5 else 8
    case Zip(op) => if op.RemoveFile? then 6 else 7
    case Webhook(_, _, _, _) => 9
    case Cleanup(_) => 10
  }

  /** Strictly increasing ranks: stages in pipeline order, each at most once. */
  ghost predicate Ordered(t: seq<Event>) {
    forall i, j :: 0 <= i < j < |t| ==> Rank(t[i]) < Rank(t[j])
  }

  ghost predicate Within(t: seq<Event>, lo: nat, hi: nat) {
    forall i :: 0 <= i < |t| ==> lo <= Rank(t[i]) <= hi
  }

  /** The rank of the stage whose failure a fault reports. */
  function FaultRank(f: Fault): nat {
    match f
    case PathsMissing => 0
    case BadClusterCount => 0
    case ScratchFailed => 0
    case BadBase64 => 0
    case NoContent => 0
    case FetchFailed => 1
    case WriteFailed => 1
    case ExtractFailed => 2
    case BadMode => 3
    case ClusterFailed => 4
    case MeshUploadFailed => 5
    case ArchiveFailed => 7
    case ArchiveUploadFailed => 8
    case WebhookFailed => 9
  }

  lemma OrderedAppend(a: seq<Event>, b: seq<Event>, lo: nat, mid: nat, hi: nat)
    requires Ordered(a) && Ordered(b)
    requires lo <= mid < hi
    requires Within(a, lo, mid) && Within(b, mid + 1, hi)
    ensures Ordered(a + b) && Within(a + b, lo, hi)
  {
    var t := a + b;
    forall i, j | 0 <= i < j < |t|
      ensures Rank(t[i]) < Rank(t[j])
    {
      if j < |a| {
        assert t[i] == a[i] && t[j] == a[j];
      } else if i >= |a| {
        assert t[i] == b[i - |a|] && t[j] == b[j - |a|];
      } else {
        assert t[i] == a[i] && t[j] == b[j - |a|];
      }
    }
    forall i | 0 <= i < |t|
      ensures lo <= Rank(t[i]) <= hi
    {
      if i < |a| {
        assert t[i] == a[i];
      } else {
        assert t[i] == b[i - |a|];
      }
    }
  }

  /** The scratch directory a job gets, when it gets one. */
  function ScratchOf(job: Job, fx: Effects): string {
    ScratchRoot(JobId(job.id, fx.uuid), fx.scratchName)
  }

  /** True when the handler gets past the checks that precede allocation and
      the scratch directory can be created. */
  predicate Admitted(job: Job, fx: Effects) {
    && fx.pathsOk && ClusterBound(job.input.maxNumClusters).Some? && Truthy(job.input.userId)
    && ScratchCreatable(JobId(job.id, fx.uuid))
  }

  function SourceOf(job: Job): MeshSource {
    SelectSource(job.input.stlPresignedUrl, job.input.meshUrl, job.input.meshBase64)
  }

  /** The mesh is materialised: a fetch that succeeds, or a payload that
      decodes to some bytes whose write succeeds. */
  predicate Acquired(src: MeshSource, fx: Effects) {
    match src
    case PresignedUrl(_) => fx.fetchOk
    case MeshUrl(_) => fx.fetchOk
    case InlineBase64(p) => fx.decode(p).Some? && fx.decode(p).value != [] && fx.writeOk
    case NoMesh => false
  }

  /** Every effect the handler reaches succeeds (the webhook only counts when configured). */
  predicate AllSucceed(job: Job, cfg: Config, fx: Effects) {
    && Admitted(job, fx)
    && Acquired(SourceOf(job), fx)
    && fx.extractOk
    && ParseMode(job.input.mode.GetOr(DefaultMode)).Some?
    && fx.clusterOk
    && fx.meshUploadOk
    && fx.archiveOk
    && fx.archiveUploadOk
    && (Truthy(cfg.webhookUrl) ==> fx.webhookOk)
  }

  // ----- shapes of traces -----

  /** Both artifacts were uploaded, the mesh before the archive. */
  ghost predicate UploadedBoth(t: seq<Event>) {
    exists i, j :: 0 <= i < j < |t| && t[i].Upload? && t[i].artifact == MeshArtifact
                                    && t[j].Upload? && t[j].artifact == ArchiveArtifact
  }

  /** Every upload targets the key its artifact kind prescribes. */
  ghost predicate KeysFollowLayout(t: seq<Event>, jobId: string, filename: string) {
    forall i :: 0 <= i < |t| && t[i].Upload? ==>
      t[i].key == (if t[i].artifact == MeshArtifact then MeshKey(jobId, filename) else ArchiveKey(jobId))
  }

  /** A raised fault is reported by the stage that produced the last effect. */
  ghost predicate StopsAtFault(r: Run) {
    r.outcome.Raised? && |r.trace| > 0 ==> Rank(r.trace[|r.trace| - 1]) == FaultRank(r.outcome.fault)
  }

  ghost predicate HasCluster(t: seq<Event>) {
    exists k :: 0 <= k < |t| && t[k].Cluster?
  }

  /** The only clustering effect, if any, sits at position `j`, right after
      the extraction and the creation of the dump directory. */
  ghost predicate ClusterOnlyAt(t: seq<Event>, j: nat) {
    forall k :: 0 <= k < |t| && t[k].Cluster? ==> k == j && 2 <= j && t[j - 2].Extract? && t[j - 1].MakeDumpDir?
  }

  /** The only mesh-materialising effect, if any, sits at position `j` and writes `dest`. */
  ghost predicate MeshOnlyAt(t: seq<Event>, j: nat, dest: string) {
    forall k :: 0 <= k < |t| && (t[k].Fetch? || t[k].WriteMesh?) ==> k == j && t[k].dest == dest
  }

  /** The allocation comes first and the cleanup last, and neither occurs in between. */
  ghost predicate Bracketed(t: seq<Event>, root: string) {
    && |t| >= 2
    && t[0] == AllocScratch(root)
    && t[|t| - 1] == Cleanup(root)
    && forall i :: 0 < i < |t| - 1 ==> !t[i].Cleanup? && !t[i].AllocScratch?
  }

  /** The effect before cleanup belongs to the failed stage, and nothing
      before it belongs to a later stage. */
  ghost predicate HaltsAt(t: seq<Event>, f: Fault) {
    && |t| >= 2
    && Rank(t[|t| - 2]) == FaultRank(f)
    && forall i :: 0 <= i < |t| - 1 ==> Rank(t[i]) <= FaultRank(f)
  }

  /** The run raised the unknown-mode fault right after extracting (at
      position `j`) and creating the dump directory. */
  ghost predicate RejectedMode(r: Run, j: nat) {
    r.outcome == Raised(BadMode) && |r.trace| == j + 2 && r.trace[j].Extract? && r.trace[j + 1].MakeDumpDir?
  }

  lemma UploadedBothAfter(a: seq<Event>, b: seq<Event>, c: seq<Event>)
    requires UploadedBoth(b)
    ensures UploadedBoth(a + b + c)
  {
    var i, j :| 0 <= i < j < |b| && b[i].Upload? && b[i].artifact == MeshArtifact
                                 && b[j].Upload? && b[j].artifact == ArchiveArtifact;
    var t := a + b + c;
    assert t[|a| + i] == b[i] && t[|a| + j] == b[j];
  }

  lemma KeysAppend(a: seq<Event>, b: seq<Event>, jobId: string, filename: string)
    requires KeysFollowLayout(a, jobId, filename) && KeysFollowLayout(b, jobId, filename)
    ensures KeysFollowLayout(a + b, jobId, filename)
  {
    var t := a + b;
    forall i | 0 <= i < |t| && t[i].Upload?
      ensures t[i].key == (if t[i].artifact == MeshArtifact then MeshKey(jobId, filename) else ArchiveKey(jobId))
    {
      if i < |a| { assert t[i] == a[i]; } else { assert t[i] == b[i - |a|]; }
    }
  }

  /** Where an index of a three-part concatenation points. */
  lemma ConcatIndex(a: seq<Event>, b: seq<Event>, c: seq<Event>, k: int)
    requires 0 <= k < |a| + |b| + |c|
    ensures k < |a| ==> (a + b + c)[k] == a[k]
    ensures |a| <= k < |a| + |b| ==> (a + b + c)[k] == b[k - |a|]
    ensures |a| + |b| <= k ==> (a + b + c)[k] == c[k - |a| - |b|]
  {
  }

  /** Putting effects of other kinds around a trace moves its clustering effect along. */
  lemma ClusterShift(a: seq<Event>, b: seq<Event>, c: seq<Event>, j: nat)
    requires ClusterOnlyAt(b, j)
    requires forall k :: 0 <= k < |a| ==> Rank(a[k]) != 4
    requires forall k :: 0 <= k < |c| ==> Rank(c[k]) != 4
    ensures ClusterOnlyAt(a + b + c, j + |a|)
    ensures HasCluster(a + b + c) ==> HasCluster(b)
  {
    var t := a + b + c;
    forall k | 0 <= k < |t| && t[k].Cluster?
      ensures k == j + |a| && 2 <= j + |a| && t[j + |a| - 2].Extract? && t[j + |a| - 1].MakeDumpDir?
    {
      ConcatIndex(a, b, c, k);
      assert t[k] == b[k - |a|];
      assert t[j + |a| - 2] == b[j - 2] && t[j + |a| - 1] == b[j - 1];
    }
    if HasCluster(t) {
      var k :| 0 <= k < |t| && t[k].Cluster?;
      assert b[k - |a|] == t[k];
    }
  }

  /** Putting effects of other kinds around a trace moves its mesh effect along. */
  lemma MeshShift(a: seq<Event>, b: seq<Event>, c: seq<Event>, j: nat, dest: string)
    requires MeshOnlyAt(b, j, dest)
    requires forall k :: 0 <= k < |a| ==> Rank(a[k]) != 1
    requires forall k :: 0 <= k < |c| ==> Rank(c[k]) != 1
    ensures MeshOnlyAt(a + b + c, j + |a|, dest)
  {
    var t := a + b + c;
    forall k | 0 <= k < |t| && (t[k].Fetch? || t[k].WriteMesh?)
      ensures k == j + |a| && t[k].dest == dest
    {
      ConcatIndex(a, b, c, k);
      assert t[k] == b[k - |a|];
    }
  }

  /** Wrapping a pipeline trace in allocation and cleanup keeps it ordered
      and makes it bracketed. */
  lemma Bracket(p: seq<Event>, root: string)
    requires Ordered(p) && Within(p, 1, 9)
    ensures var t := [AllocScratch(root)] + p + [Cleanup(root)];
      Ordered(t) && Bracketed(t, root)
  {
    OrderedAppend([AllocScratch(root)], p, 0, 0, 9);
    OrderedAppend([AllocScratch(root)] + p, [Cleanup(root)], 0, 9, 10);
    var t := [AllocScratch(root)] + p + [Cleanup(root)];
    forall i | 0 < i < |t| - 1
      ensures !t[i].Cleanup? && !t[i].AllocScratch?
    {
      assert t[i] == p[i - 1];
      assert 1 <= Rank(p[i - 1]) <= 9;
    }
  }

  /** A pipeline that stops at a fault makes the bracketed trace halt there. */
  lemma BracketHalts(p: seq<Event>, root: string, f: Fault)
    requires Ordered(p) && Within(p, 1, 9)
    requires p != [] ==> Rank(p[|p| - 1]) == FaultRank(f)
    requires p == [] ==> FaultRank(f) == 0
    ensures HaltsAt([AllocScratch(root)] + p + [Cleanup(root)], f)
  {
    Bracket(p, root);
    var t := [AllocScratch(root)] + p + [Cleanup(root)];
    var k := |t| - 2;
    if p == [] {
      assert t[k] == AllocScratch(root);
    } else {
      assert t[k] == p[|p| - 1];
    }
    forall i | 0 <= i < |t| - 1
      ensures Rank(t[i]) <= FaultRank(f)
    {
      if i < k {
        assert Rank(t[i]) < Rank(t[k]);
      }
    }
  }

  // ----- delivery: uploads, archive, webhook -----

  /** `zip_dir` removes the stale archive, if any, before writing the new one. */
  lemma ZipEventsOrdered(dumpDir: string, archiveExists: bool)
    ensures var zips := ZipEvents(ZipDir(dumpDir, archiveExists).ops);
      Ordered(zips) && Within(zips, 6, 7)
  {
    var plan := ZipDir(dumpDir, archiveExists);
    var zips := ZipEvents(plan.ops);
    if archiveExists {
      assert zips == [Zip(RemoveFile(plan.archivePath)), Zip(MakeZip(dumpDir, dumpDir))];
    } else {
      assert zips == [Zip(MakeZip(dumpDir, dumpDir))];
    }
  }

  /** The four ways delivery can go. */
  lemma DeliverUnfold(cfg: Config, fx: Effects, jobId: string, userId: string, filename: string,
                      mode: string, maxK: int, meshPath: string, dumpDir: string)
    ensures var r := Deliver(cfg, fx, jobId, userId, filename, mode, maxK, meshPath, dumpDir);
      var meshUp := Upload(MeshArtifact, meshPath, cfg.bucket, MeshKey(jobId, filename), UrlExpiry);
      var plan := ZipDir(dumpDir, fx.archiveExists);
      var zipping := [meshUp] + ZipEvents(plan.ops);
      var archiveUp := Upload(ArchiveArtifact, plan.archivePath, cfg.bucket, ArchiveKey(jobId), UrlExpiry);
      var note := Notify(cfg, Body("success", jobId, userId, fx.meshUrl, fx.archiveUrl, mode, maxK), fx.webhookOk);
      && (!fx.meshUploadOk ==> r == Run([meshUp], Raised(MeshUploadFailed)))
      && (fx.meshUploadOk && !fx.archiveOk ==> r == Run(zipping, Raised(ArchiveFailed)))
      && (fx.meshUploadOk && fx.archiveOk && !fx.archiveUploadOk ==>
            r == Run(zipping + [archiveUp], Raised(ArchiveUploadFailed)))
      && (fx.meshUploadOk && fx.archiveOk && fx.archiveUploadOk ==>
            r.trace == zipping + [archiveUp] + note.trace
            && (note.fault.Some? ==> r.outcome == Raised(note.fault.value))
            && (note.fault.None? ==> r.outcome.Returned?))
  {
  }

  lemma DeliverOrdered(cfg: Config, fx: Effects, jobId: string, userId: string, filename: string,
                       mode: string, maxK: int, meshPath: string, dumpDir: string)
    ensures var r := Deliver(cfg, fx, jobId, userId, filename, mode, maxK, meshPath, dumpDir);
      Ordered(r.trace) && Within(r.trace, 5, 9)
  {
    DeliverUnfold(cfg, fx, jobId, userId, filename, mode, maxK, meshPath, dumpDir);
    var meshUp := Upload(MeshArtifact, meshPath, cfg.bucket, MeshKey(jobId, filename), UrlExpiry);
    var plan := ZipDir(dumpDir, fx.archiveExists);
    var zips := ZipEvents(plan.ops);
    ZipEventsOrdered(dumpDir, fx.archiveExists);
    OrderedAppend([meshUp], zips, 5, 5, 7);
    var zipping := [meshUp] + zips;
    var archiveUp := Upload(ArchiveArtifact, plan.archivePath, cfg.bucket, ArchiveKey(jobId), UrlExpiry);
    OrderedAppend(zipping, [archiveUp], 5, 7, 8);
    var note := Notify(cfg, Body("success", jobId, userId, fx.meshUrl, fx.archiveUrl, mode, maxK), fx.webhookOk);
    OrderedAppend(zipping + [archiveUp], note.trace, 5, 8, 9);
  }

  lemma DeliverOutcome(cfg: Config, fx: Effects, jobId: string, userId: string, filename: string,
                       mode: string, maxK: int, meshPath: string, dumpDir: string)
    ensures var r := Deliver(cfg, fx, jobId, userId, filename, mode, maxK, meshPath, dumpDir);
      && |r.trace| > 0 && !r.outcome.ErrorDict? && StopsAtFault(r)
      && (r.outcome.Returned? <==>
            fx.meshUploadOk && fx.archiveOk && fx.archiveUploadOk && (Truthy(cfg.webhookUrl) ==> fx.webhookOk))
  {
    DeliverUnfold(cfg, fx, jobId, userId, filename, mode, maxK, meshPath, dumpDir);
    var zips := ZipEvents(ZipDir(dumpDir, fx.archiveExists).ops);
    assert zips[|zips| - 1] == Zip(MakeZip(dumpDir, dumpDir));
  }

  lemma DeliverKeys(cfg: Config, fx: Effects, jobId: string, userId: string, filename: string,
                    mode: string, maxK: int, meshPath: string, dumpDir: string)
    ensures KeysFollowLayout(Deliver(cfg, fx, jobId, userId, filename, mode, maxK, meshPath, dumpDir).trace, jobId, filename)
  {
    DeliverUnfold(cfg, fx, jobId, userId, filename, mode, maxK, meshPath, dumpDir);
    var meshUp := Upload(MeshArtifact, meshPath, cfg.bucket, MeshKey(jobId, filename), UrlExpiry);
    var plan := ZipDir(dumpDir, fx.archiveExists);
    var zips := ZipEvents(plan.ops);
    assert KeysFollowLayout([meshUp], jobId, filename);
    assert KeysFollowLayout(zips, jobId, filename);
    KeysAppend([meshUp], zips, jobId, filename);
    var zipping := [meshUp] + zips;
    var archiveUp := Upload(ArchiveArtifact, plan.archivePath, cfg.bucket, ArchiveKey(jobId), UrlExpiry);
    assert KeysFollowLayout([archiveUp], jobId, filename);
    KeysAppend(zipping, [archiveUp], jobId, filename);
    var note := Notify(cfg, Body("success", jobId, userId, fx.meshUrl, fx.archiveUrl, mode, maxK), fx.webhookOk);
    assert KeysFollowLayout(note.trace, jobId, filename);
    KeysAppend(zipping + [archiveUp], note.trace, jobId, filename);
  }

  lemma DeliverUploads(cfg: Config, fx: Effects, jobId: string, userId: string, filename: string,
                       mode: string, maxK: int, meshPath: string, dumpDir: string)
    ensures var r := Deliver(cfg, fx, jobId, userId, filename, mode, maxK, meshPath, dumpDir);
      r.outcome.Returned? ==> UploadedBoth(r.trace)
  {
    DeliverUnfold(cfg, fx, jobId, userId, filename, mode, maxK, meshPath, dumpDir);
    var r := Deliver(cfg, fx, jobId, userId, filename, mode, maxK, meshPath, dumpDir);
    if r.outcome.Returned? {
      var plan := ZipDir(dumpDir, fx.archiveExists);
      var k := 1 + |plan.ops|;
      assert r.trace[0].Upload? && r.trace[0].artifact == MeshArtifact;
      assert r.trace[k].Upload? && r.trace[k].artifact == ArchiveArtifact;
    }
  }

  // ----- the two subprocesses, then delivery -----

  lemma RunStagesOrdered(cfg: Config, fx: Effects, jobId: string, userId: string, filename: string,
                         mode: string, maxK: int, meshPath: string, extractArgv: seq<string>, cl: ClusterStep)
    ensures var r := RunStages(cfg, fx, jobId, userId, filename, mode, maxK, meshPath, extractArgv, cl);
      Ordered(r.trace) && Within(r.trace, 2, 9)
  {
    RunStagesUnfold(cfg, fx, jobId, userId, filename, mode, maxK, meshPath, extractArgv, cl);
    if fx.extractOk && cl.argv.Some? && fx.clusterOk {
      var head := [Extract(extractArgv, cfg.pfRoot), MakeDumpDir(cl.dumpDir), Cluster(cl.argv.value, cfg.pfRoot)];
      var rest := Deliver(cfg, fx, jobId, userId, filename, mode, maxK, meshPath, cl.dumpDir);
      DeliverOrdered(cfg, fx, jobId, userId, filename, mode, maxK, meshPath, cl.dumpDir);
      OrderedAppend(head, rest.trace, 2, 4, 9);
    }
  }

  lemma RunStagesCluster(cfg: Config, fx: Effects, jobId: string, userId: string, filename: string,
                         mode: string, maxK: int, meshPath: string, extractArgv: seq<string>, cl: ClusterStep)
    ensures var r := RunStages(cfg, fx, jobId, userId, filename, mode, maxK, meshPath, extractArgv, cl);
      && ClusterOnlyAt(r.trace, 2)
      && (HasCluster(r.trace) ==> fx.extractOk && cl.argv.Some?)
  {
    var r := RunStages(cfg, fx, jobId, userId, filename, mode, maxK, meshPath, extractArgv, cl);
    var extract := Extract(extractArgv, cfg.pfRoot);
    if !fx.extractOk {
      assert r.trace == [extract];
    } else if cl.argv.None? {
      assert r.trace == [extract, MakeDumpDir(cl.dumpDir)];
    } else {
      var head := [extract, MakeDumpDir(cl.dumpDir), Cluster(cl.argv.value, cfg.pfRoot)];
      var rest: seq<Event> := [];
      if fx.clusterOk {
        rest := Deliver(cfg, fx, jobId, userId, filename, mode, maxK, meshPath, cl.dumpDir).trace;
        DeliverOrdered(cfg, fx, jobId, userId, filename, mode, maxK, meshPath, cl.dumpDir);
      }
      assert r.trace == [] + head + rest;
      ClusterShift([], head, rest, 2);
    }
  }

  /** The four ways the stages can go. */
  lemma RunStagesUnfold(cfg: Config, fx: Effects, jobId: string, userId: string, filename: string,
                        mode: string, maxK: int, meshPath: string, extractArgv: seq<string>, cl: ClusterStep)
    ensures var r := RunStages(cfg, fx, jobId, userId, filename, mode, maxK, meshPath, extractArgv, cl);
      var extract := Extract(extractArgv, cfg.pfRoot);
      && (!fx.extractOk ==> r == Run([extract], Raised(ExtractFailed)))
      && (fx.extractOk && cl.argv.None? ==> r == Run([extract, MakeDumpDir(cl.dumpDir)], Raised(BadMode)))
      && (fx.extractOk && cl.argv.Some? && !fx.clusterOk ==>
            r == Run([extract, MakeDumpDir(cl.dumpDir), Cluster(cl.argv.value, cfg.pfRoot)], Raised(ClusterFailed)))
      && (fx.extractOk && cl.argv.Some? && fx.clusterOk ==>
            var rest := Deliver(cfg, fx, jobId, userId, filename, mode, maxK, meshPath, cl.dumpDir);
            r == Run([extract, MakeDumpDir(cl.dumpDir), Cluster(cl.argv.value, cfg.pfRoot)] + rest.trace, rest.outcome))
  {
  }

  lemma RunStagesOutcome(cfg: Config, fx: Effects, jobId: string, userId: string, filename: string,
                         mode: string, maxK: int, meshPath: string, extractArgv: seq<string>, cl: ClusterStep)
    ensures var r := RunStages(cfg, fx, jobId, userId, filename, mode, maxK, meshPath, extractArgv, cl);
      && |r.trace| > 0 && !r.outcome.ErrorDict? && StopsAtFault(r)
      && (r.outcome.Returned? <==>
            && fx.extractOk && cl.argv.Some? && fx.clusterOk
            && fx.meshUploadOk && fx.archiveOk && fx.archiveUploadOk
            && (Truthy(cfg.webhookUrl) ==> fx.webhookOk))
      && (r.outcome.Returned? ==> UploadedBoth(r.trace))
  {
    RunStagesUnfold(cfg, fx, jobId, userId, filename, mode, maxK, meshPath, extractArgv, cl);
    if fx.extractOk && cl.argv.Some? && fx.clusterOk {
      var head := [Extract(extractArgv, cfg.pfRoot), MakeDumpDir(cl.dumpDir), Cluster(cl.argv.value, cfg.pfRoot)];
      var rest := Deliver(cfg, fx, jobId, userId, filename, mode, maxK, meshPath, cl.dumpDir);
      DeliverOutcome(cfg, fx, jobId, userId, filename, mode, maxK, meshPath, cl.dumpDir);
      DeliverUploads(cfg, fx, jobId, userId, filename, mode, maxK, meshPath, cl.dumpDir);
      AfterHead(head, rest);
    }
  }

  /** Effects that precede a run keep its outcome, its last effect and its uploads. */
  lemma AfterHead(head: seq<Event>, rest: Run)
    requires |rest.trace| > 0 && StopsAtFault(rest)
    ensures var r := Run(head + rest.trace, rest.outcome);
      && StopsAtFault(r)
      && (UploadedBoth(rest.trace) ==> UploadedBoth(r.trace))
  {
    var r := Run(head + rest.trace, rest.outcome);
    assert r.trace[|r.trace| - 1] == rest.trace[|rest.trace| - 1];
    if UploadedBoth(rest.trace) {
      UploadedBothAfter(head, rest.trace, []);
      assert head + rest.trace + [] == r.trace;
    }
  }

  lemma RunStagesKeys(cfg: Config, fx: Effects, jobId: string, userId: string, filename: string,
                      mode: string, maxK: int, meshPath: string, extractArgv: seq<string>, cl: ClusterStep)
    ensures KeysFollowLayout(RunStages(cfg, fx, jobId, userId, filename, mode, maxK, meshPath, extractArgv, cl).trace,
                             jobId, filename)
  {
    RunStagesUnfold(cfg, fx, jobId, userId, filename, mode, maxK, meshPath, extractArgv, cl);
    var head := [Extract(extractArgv, cfg.pfRoot), MakeDumpDir(cl.dumpDir)]
                + (if cl.argv.Some? then [Cluster(cl.argv.value, cfg.pfRoot)] else []);
    assert KeysFollowLayout(head, jobId, filename);
    assert KeysFollowLayout([Extract(extractArgv, cfg.pfRoot)], jobId, filename);
    if fx.extractOk && cl.argv.Some? && fx.clusterOk {
      var rest := Deliver(cfg, fx, jobId, userId, filename, mode, maxK, meshPath, cl.dumpDir);
      DeliverKeys(cfg, fx, jobId, userId, filename, mode, maxK, meshPath, cl.dumpDir);
      KeysAppend(head, rest.trace, jobId, filename);
    }
  }

  /** Stages are the sequencing of the builders' output; the clustering step
      has an argv exactly for a known mode. */
  lemma StagesUnfold(cfg: Config, fx: Effects, jobId: string, userId: string, filename: string,
                     mode: string, maxK: int, dataDir: string, meshPath: string)
    ensures var ex := PartfieldInference(cfg.pfRoot, cfg.pfCheckpoint, jobId, dataDir, true);
      var cl := PartfieldClustering(cfg.pfRoot, jobId, dataDir, ex.featureRoot, mode, maxK);
      && Stages(cfg, fx, jobId, userId, filename, mode, maxK, dataDir, meshPath)
         == RunStages(cfg, fx, jobId, userId, filename, mode, maxK, meshPath, ex.argv, cl)
      && (cl.argv.Some? <==> ParseMode(mode).Some?)
  {
  }

  lemma StagesOrdered(cfg: Config, fx: Effects, jobId: string, userId: string, filename: string,
                      mode: string, maxK: int, dataDir: string, meshPath: string)
    ensures var r := Stages(cfg, fx, jobId, userId, filename, mode, maxK, dataDir, meshPath);
      && Ordered(r.trace) && Within(r.trace, 2, 9)
      && ClusterOnlyAt(r.trace, 2)
      && (HasCluster(r.trace) ==> fx.extractOk && ParseMode(mode).Some?)
  {
    var ex := PartfieldInference(cfg.pfRoot, cfg.pfCheckpoint, jobId, dataDir, true);
    var cl := PartfieldClustering(cfg.pfRoot, jobId, dataDir, ex.featureRoot, mode, maxK);
    StagesUnfold(cfg, fx, jobId, userId, filename, mode, maxK, dataDir, meshPath);
    RunStagesOrdered(cfg, fx, jobId, userId, filename, mode, maxK, meshPath, ex.argv, cl);
    RunStagesCluster(cfg, fx, jobId, userId, filename, mode, maxK, meshPath, ex.argv, cl);
  }

  lemma StagesOutcome(cfg: Config, fx: Effects, jobId: string, userId: string, filename: string,
                      mode: string, maxK: int, dataDir: string, meshPath: string)
    ensures var r := Stages(cfg, fx, jobId, userId, filename, mode, maxK, dataDir, meshPath);
      && |r.trace| > 0 && !r.outcome.ErrorDict? && StopsAtFault(r)
      && (r.outcome.Returned? <==>
            && fx.extractOk && ParseMode(mode).Some? && fx.clusterOk
            && fx.meshUploadOk && fx.archiveOk && fx.archiveUploadOk
            && (Truthy(cfg.webhookUrl) ==> fx.webhookOk))
      && (r.outcome.Returned? ==> UploadedBoth(r.trace))
  {
    var ex := PartfieldInference(cfg.pfRoot, cfg.pfCheckpoint, jobId, dataDir, true);
    var cl := PartfieldClustering(cfg.pfRoot, jobId, dataDir, ex.featureRoot, mode, maxK);
    StagesUnfold(cfg, fx, jobId, userId, filename, mode, maxK, dataDir, meshPath);
    RunStagesOutcome(cfg, fx, jobId, userId, filename, mode, maxK, meshPath, ex.argv, cl);
  }

  lemma StagesKeys(cfg: Config, fx: Effects, jobId: string, userId: string, filename: string,
                   mode: string, maxK: int, dataDir: string, meshPath: string)
    ensures KeysFollowLayout(Stages(cfg, fx, jobId, userId, filename, mode, maxK, dataDir, meshPath).trace, jobId, filename)
  {
    var ex := PartfieldInference(cfg.pfRoot, cfg.pfCheckpoint, jobId, dataDir, true);
    var cl := PartfieldClustering(cfg.pfRoot, jobId, dataDir, ex.featureRoot, mode, maxK);
    StagesUnfold(cfg, fx, jobId, userId, filename, mode, maxK, dataDir, meshPath);
    RunStagesKeys(cfg, fx, jobId, userId, filename, mode, maxK, meshPath, ex.argv, cl);
  }

  /** With successful extraction and an unknown mode, the stages stop right
      after creating the dump directory. */
  lemma StagesBadMode(cfg: Config, fx: Effects, jobId: string, userId: string, filename: string,
                      mode: string, maxK: int, dataDir: string, meshPath: string)
    requires fx.extractOk && ParseMode(mode).None?
    ensures RejectedMode(Stages(cfg, fx, jobId, userId, filename, mode, maxK, dataDir, meshPath), 0)
  {
    StagesUnfold(cfg, fx, jobId, userId, filename, mode, maxK, dataDir, meshPath);
  }

  // ----- inside the scratch directory -----

  /** The mesh-acquisition step succeeds exactly when the source is acquired. */
  lemma AcquireOutcome(src: MeshSource, meshPath: string, fx: Effects)
    requires !src.NoMesh? && SourceText(src) != ""
    ensures var got := Acquire(src, meshPath, fx);
      && (got.fault.None? <==> Acquired(src, fx))
      && Within(got.trace, 1, 1) && |got.trace| <= 1
      && MeshOnlyAt(got.trace, 0, meshPath)
      && (got.fault.Some? && got.trace != [] ==> FaultRank(got.fault.value) == 1)
      && (got.fault.Some? && got.trace == [] ==> FaultRank(got.fault.value) == 0)
  {
  }

  /** Facts about a step followed by the stages, independent of what they do. */
  lemma ThenOrdered(got: Step, rest: Run, dest: string)
    requires Ordered(got.trace) && Within(got.trace, 1, 1) && MeshOnlyAt(got.trace, 0, dest)
    requires got.fault.None? ==> |got.trace| == 1 && Ordered(rest.trace) && Within(rest.trace, 2, 9) && ClusterOnlyAt(rest.trace, 2)
    ensures var r := Then(got, rest);
      && Ordered(r.trace) && Within(r.trace, 1, 9)
      && MeshOnlyAt(r.trace, 0, dest)
      && ClusterOnlyAt(r.trace, 3)
      && (HasCluster(r.trace) ==> got.fault.None? && HasCluster(rest.trace))
  {
    if got.fault.None? {
      OrderedAppend(got.trace, rest.trace, 1, 1, 9);
      MeshShift([], got.trace, rest.trace, 0, dest);
      ClusterShift(got.trace, rest.trace, [], 2);
      assert got.trace + rest.trace == [] + got.trace + rest.trace == got.trace + rest.trace + [];
    } else {
      assert !HasCluster(got.trace);
    }
  }

  lemma ThenKeys(got: Step, rest: Run, jobId: string, filename: string)
    requires Within(got.trace, 1, 1) && KeysFollowLayout(rest.trace, jobId, filename)
    ensures KeysFollowLayout(Then(got, rest).trace, jobId, filename)
  {
    assert KeysFollowLayout(got.trace, jobId, filename) by {
      forall i | 0 <= i < |got.trace|
        ensures !got.trace[i].Upload?
      {
        assert Rank(got.trace[i]) == 1;
      }
    }
    KeysAppend(got.trace, rest.trace, jobId, filename);
  }

  lemma ThenOutcome(got: Step, rest: Run)
    requires got.fault.Some? && got.trace != [] ==> Rank(got.trace[|got.trace| - 1]) == FaultRank(got.fault.value)
    requires got.fault.None? ==> |rest.trace| > 0 && StopsAtFault(rest)
    ensures var r := Then(got, rest);
      && StopsAtFault(r)
      && (r.outcome.Returned? <==> got.fault.None? && rest.outcome.Returned?)
      && (r.outcome.ErrorDict? <==> got.fault.None? && rest.outcome.ErrorDict?)
      && (r.outcome.Raised? && r.trace == [] ==> got.fault.Some? && got.trace == [])
      && (r.outcome.Returned? && UploadedBoth(rest.trace) ==> UploadedBoth(r.trace))
  {
    var r := Then(got, rest);
    if got.fault.None? {
      assert r.trace[|r.trace| - 1] == rest.trace[|rest.trace| - 1];
      if UploadedBoth(rest.trace) {
        UploadedBothAfter(got.trace, rest.trace, []);
        assert got.trace + rest.trace + [] == r.trace;
      }
    }
  }

  /** The pipeline is the acquisition step followed by the stages. */
  lemma PipelineUnfold(cfg: Config, fx: Effects, jobId: string, inp: JobInput, filename: string,
                       mode: string, maxK: int, root: string)
    requires Truthy(inp.userId)
    ensures var src := SelectSource(inp.stlPresignedUrl, inp.meshUrl, inp.meshBase64);
      var dataDir := PathJoin(root, "data");
      var meshPath := PathJoin(dataDir, filename);
      && (src.NoMesh? ==> Pipeline(cfg, fx, jobId, inp, filename, mode, maxK, root) == Run([], ErrorDict(NoMeshMessage)))
      && (!src.NoMesh? ==>
            && SourceText(src) != ""
            && Pipeline(cfg, fx, jobId, inp, filename, mode, maxK, root)
               == Then(Acquire(src, meshPath, fx), Stages(cfg, fx, jobId, inp.userId.value, filename, mode, maxK, dataDir, meshPath)))
  {
  }

  lemma PipelineOrdered(cfg: Config, fx: Effects, jobId: string, inp: JobInput, filename: string,
                        mode: string, maxK: int, root: string)
    requires Truthy(inp.userId)
    ensures var r := Pipeline(cfg, fx, jobId, inp, filename, mode, maxK, root);
      && Ordered(r.trace) && Within(r.trace, 1, 9)
      && MeshOnlyAt(r.trace, 0, PathJoin(PathJoin(root, "data"), filename))
      && ClusterOnlyAt(r.trace, 3)
      && (HasCluster(r.trace) ==> fx.extractOk && ParseMode(mode).Some?)
  {
    PipelineUnfold(cfg, fx, jobId, inp, filename, mode, maxK, root);
    var src := SelectSource(inp.stlPresignedUrl, inp.meshUrl, inp.meshBase64);
    var dataDir := PathJoin(root, "data");
    var meshPath := PathJoin(dataDir, filename);
    if !src.NoMesh? {
      var got := Acquire(src, meshPath, fx);
      var rest := Stages(cfg, fx, jobId, inp.userId.value, filename, mode, maxK, dataDir, meshPath);
      AcquireOutcome(src, meshPath, fx);
      StagesOrdered(cfg, fx, jobId, inp.userId.value, filename, mode, maxK, dataDir, meshPath);
      ThenOrdered(got, rest, meshPath);
    }
  }

  lemma PipelineError(cfg: Config, fx: Effects, jobId: string, inp: JobInput, filename: string,
                      mode: string, maxK: int, root: string)
    requires Truthy(inp.userId)
    ensures var r := Pipeline(cfg, fx, jobId, inp, filename, mode, maxK, root);
      && (r.outcome.ErrorDict? <==> SelectSource(inp.stlPresignedUrl, inp.meshUrl, inp.meshBase64).NoMesh?)
      && (r.outcome.ErrorDict? ==> r.trace == [] && r.outcome.message == NoMeshMessage)
  {
    PipelineUnfold(cfg, fx, jobId, inp, filename, mode, maxK, root);
    var src := SelectSource(inp.stlPresignedUrl, inp.meshUrl, inp.meshBase64);
    var dataDir := PathJoin(root, "data");
    var meshPath := PathJoin(dataDir, filename);
    if !src.NoMesh? {
      var got := Acquire(src, meshPath, fx);
      var rest := Stages(cfg, fx, jobId, inp.userId.value, filename, mode, maxK, dataDir, meshPath);
      AcquireOutcome(src, meshPath, fx);
      StagesOutcome(cfg, fx, jobId, inp.userId.value, filename, mode, maxK, dataDir, meshPath);
      ThenOutcome(got, rest);
    }
  }

  lemma PipelineFault(cfg: Config, fx: Effects, jobId: string, inp: JobInput, filename: string,
                      mode: string, maxK: int, root: string)
    requires Truthy(inp.userId)
    ensures var r := Pipeline(cfg, fx, jobId, inp, filename, mode, maxK, root);
      && StopsAtFault(r)
      && (r.outcome.Raised? && r.trace == [] ==> FaultRank(r.outcome.fault) == 0)
  {
    PipelineUnfold(cfg, fx, jobId, inp, filename, mode, maxK, root);
    var src := SelectSource(inp.stlPresignedUrl, inp.meshUrl, inp.meshBase64);
    var dataDir := PathJoin(root, "data");
    var meshPath := PathJoin(dataDir, filename);
    if !src.NoMesh? {
      var got := Acquire(src, meshPath, fx);
      var rest := Stages(cfg, fx, jobId, inp.userId.value, filename, mode, maxK, dataDir, meshPath);
      AcquireOutcome(src, meshPath, fx);
      StagesOutcome(cfg, fx, jobId, inp.userId.value, filename, mode, maxK, dataDir, meshPath);
      ThenOutcome(got, rest);
    }
  }

  lemma PipelineSuccess(cfg: Config, fx: Effects, jobId: string, inp: JobInput, filename: string,
                        mode: string, maxK: int, root: string)
    requires Truthy(inp.userId)
    ensures var r := Pipeline(cfg, fx, jobId, inp, filename, mode, maxK, root);
      && (r.outcome.Returned? <==>
            && Acquired(SelectSource(inp.stlPresignedUrl, inp.meshUrl, inp.meshBase64), fx)
            && fx.extractOk && ParseMode(mode).Some? && fx.clusterOk
            && fx.meshUploadOk && fx.archiveOk && fx.archiveUploadOk
            && (Truthy(cfg.webhookUrl) ==> fx.webhookOk))
      && (r.outcome.Returned? ==> UploadedBoth(r.trace))
  {
    PipelineUnfold(cfg, fx, jobId, inp, filename, mode, maxK, root);
    var src := SelectSource(inp.stlPresignedUrl, inp.meshUrl, inp.meshBase64);
    var dataDir := PathJoin(root, "data");
    var meshPath := PathJoin(dataDir, filename);
    if !src.NoMesh? {
      var got := Acquire(src, meshPath, fx);
      var rest := Stages(cfg, fx, jobId, inp.userId.value, filename, mode, maxK, dataDir, meshPath);
      AcquireOutcome(src, meshPath, fx);
      StagesOutcome(cfg, fx, jobId, inp.userId.value, filename, mode, maxK, dataDir, meshPath);
      ThenOutcome(got, rest);
    }
  }

  lemma PipelineKeys(cfg: Config, fx: Effects, jobId: string, inp: JobInput, filename: string,
                     mode: string, maxK: int, root: string)
    requires Truthy(inp.userId)
    ensures KeysFollowLayout(Pipeline(cfg, fx, jobId, inp, filename, mode, maxK, root).trace, jobId, filename)
  {
    PipelineUnfold(cfg, fx, jobId, inp, filename, mode, maxK, root);
    var src := SelectSource(inp.stlPresignedUrl, inp.meshUrl, inp.meshBase64);
    var dataDir := PathJoin(root, "data");
    var meshPath := PathJoin(dataDir, filename);
    if !src.NoMesh? {
      var got := Acquire(src, meshPath, fx);
      var rest := Stages(cfg, fx, jobId, inp.userId.value, filename, mode, maxK, dataDir, meshPath);
      AcquireOutcome(src, meshPath, fx);
      StagesKeys(cfg, fx, jobId, inp.userId.value, filename, mode, maxK, dataDir, meshPath);
      ThenKeys(got, rest, jobId, filename);
    }
  }

  lemma ThenRejected(got: Step, rest: Run)
    requires got.fault.None? && |got.trace| == 1 && RejectedMode(rest, 0)
    ensures RejectedMode(Then(got, rest), 1)
  {
    var r := Then(got, rest);
    assert r.trace == got.trace + rest.trace;
    assert r.trace[1] == rest.trace[0] && r.trace[2] == rest.trace[1];
  }

  lemma PipelineBadMode(cfg: Config, fx: Effects, jobId: string, inp: JobInput, filename: string,
                        mode: string, maxK: int, root: string)
    requires Truthy(inp.userId)
    requires Acquired(SelectSource(inp.stlPresignedUrl, inp.meshUrl, inp.meshBase64), fx)
    requires fx.extractOk && ParseMode(mode).None?
    ensures RejectedMode(Pipeline(cfg, fx, jobId, inp, filename, mode, maxK, root), 1)
  {
    PipelineUnfold(cfg, fx, jobId, inp, filename, mode, maxK, root);
    var src := SelectSource(inp.stlPresignedUrl, inp.meshUrl, inp.meshBase64);
    var dataDir := PathJoin(root, "data");
    var meshPath := PathJoin(dataDir, filename);
    AcquireOutcome(src, meshPath, fx);
    StagesBadMode(cfg, fx, jobId, inp.userId.value, filename, mode, maxK, dataDir, meshPath);
    ThenRejected(Acquire(src, meshPath, fx), Stages(cfg, fx, jobId, inp.userId.value, filename, mode, maxK, dataDir, meshPath));
  }

  // ----- the arguments each effect carries -----

  /** What an admitted job's effects are expected to name: the settings, the
      job id and request fields, its scratch directory and the paths under it,
      the toolchain's per-job directories, and the two presigned URLs the
      storage returns. */
  datatype Expect = Expect(cfg: Config, jobId: string, userId: string, filename: string, mode: string,
                           maxK: int, root: string, dataDir: string, meshPath: string,
                           featRoot: string, dumpDir: string, meshUrl: string, archiveUrl: string)

  /** The paths a job works with: `<root>/data`, the mesh file in it, and the
      toolchain's feature and clustering directories for the job. */
  function Layout(cfg: Config, jobId: string, userId: string, filename: string, mode: string, maxK: int,
                  root: string, meshUrl: string, archiveUrl: string): Expect
  {
    var dataDir := PathJoin(root, "data");
    Expect(cfg, jobId, userId, filename, mode, maxK, root, dataDir, PathJoin(dataDir, filename),
           FeatureRoot(cfg.pfRoot, jobId), ClusterDumpDir(cfg.pfRoot, jobId), meshUrl, archiveUrl)
  }

  /** The arguments one effect must carry: the mesh is written to and uploaded
      from `<root>/data/<filename>`; extraction reads that directory with
      preprocessing on and names its results after the job; clustering reads
      the job's features and writes the job's dump directory with the
      requested bound and mode; both subprocesses run in the PartField root;
      the archive is `<dump dir>.zip`; uploads go to the configured bucket;
      the webhook carries the success body. */
  predicate CarriesArgs(e: Event, x: Expect) {
    match e
    case AllocScratch(root) => root == x.root
    case Fetch(_, dest) => dest == x.meshPath
    case WriteMesh(dest, _) => dest == x.meshPath
    case Extract(argv, cwd) =>
      && cwd == x.cfg.pfRoot
      && ParseExtractArgv(argv) == Some(ExtractCall(x.cfg.pfCheckpoint, ResultName(x.jobId), x.dataDir, true))
    case MakeDumpDir(path) => path == x.dumpDir
    case Cluster(argv, cwd) =>
      && cwd == x.cfg.pfRoot
      && ParseMode(x.mode).Some?
      && ParseClusterArgv(argv)
         == Some(ClusterCall(x.featRoot, x.dumpDir, x.dataDir, x.maxK, ParseMode(x.mode).value))
    case Upload(artifact, localPath, bucket, _, expires) =>
      && bucket == x.cfg.bucket
      && expires == UrlExpiry
      && localPath == (if artifact == MeshArtifact then x.meshPath else x.dumpDir + ".zip")
    case Zip(op) => op == RemoveFile(x.dumpDir + ".zip") || op == MakeZip(x.dumpDir, x.dumpDir)
    case Webhook(url, token, payload, timeout) =>
      && Truthy(x.cfg.webhookUrl) && url == x.cfg.webhookUrl.value
      && (token.Some? <==> Truthy(x.cfg.webhookSecret))
      && (token.Some? ==> token == x.cfg.webhookSecret)
      && payload == Body("success", x.jobId, x.userId, x.meshUrl, x.archiveUrl, x.mode, x.maxK)
      && timeout == WebhookTimeout
    case Cleanup(root) => root == x.root
  }

  ghost predicate ArgsFollow(t: seq<Event>, x: Expect) {
    forall e :: e in t ==> CarriesArgs(e, x)
  }

  lemma ArgsAppend(a: seq<Event>, b: seq<Event>, x: Expect)
    requires ArgsFollow(a, x) && ArgsFollow(b, x)
    ensures ArgsFollow(a + b, x)
  {
  }

  /** The webhook, when sent, carries the configured URL and secret and the given body. */
  lemma NotifyArgs(x: Expect, ok: bool)
    ensures ArgsFollow(Notify(x.cfg, Body("success", x.jobId, x.userId, x.meshUrl, x.archiveUrl, x.mode, x.maxK), ok).trace, x)
  {
  }

  /** The archive operations only touch the job's dump directory and its archive. */
  lemma ZipArgs(x: Expect, archiveExists: bool)
    ensures ArgsFollow(ZipEvents(ZipDir(x.dumpDir, archiveExists).ops), x)
  {
    var dumpDir := x.dumpDir;
    var zips := ZipEvents(ZipDir(dumpDir, archiveExists).ops);
    forall e | e in zips
      ensures CarriesArgs(e, x)
    {
      var i :| 0 <= i < |zips| && zips[i] == e;
      if i < |zips| - 1 {
        assert e == Zip(RemoveFile(dumpDir + ".zip"));
      } else {
        assert e == Zip(MakeZip(dumpDir, dumpDir));
      }
    }
  }

  /** The mesh is uploaded from where it was written, the archive from `<dump dir>.zip`. */
  lemma UploadArgs(x: Expect, archiveExists: bool)
    ensures var plan := ZipDir(x.dumpDir, archiveExists);
      && ArgsFollow([Upload(MeshArtifact, x.meshPath, x.cfg.bucket, MeshKey(x.jobId, x.filename), UrlExpiry)], x)
      && ArgsFollow([Upload(ArchiveArtifact, plan.archivePath, x.cfg.bucket, ArchiveKey(x.jobId), UrlExpiry)], x)
  {
    var plan := ZipDir(x.dumpDir, archiveExists);
    assert CarriesArgs(Upload(MeshArtifact, x.meshPath, x.cfg.bucket, MeshKey(x.jobId, x.filename), UrlExpiry), x);
    assert CarriesArgs(Upload(ArchiveArtifact, plan.archivePath, x.cfg.bucket, ArchiveKey(x.jobId), UrlExpiry), x);
  }

  /** Every effect delivery could perform carries the job's arguments. */
  lemma DeliveryArgs(x: Expect, archiveExists: bool, webhookOk: bool)
    ensures var plan := ZipDir(x.dumpDir, archiveExists);
      var meshUp := Upload(MeshArtifact, x.meshPath, x.cfg.bucket, MeshKey(x.jobId, x.filename), UrlExpiry);
      var archiveUp := Upload(ArchiveArtifact, plan.archivePath, x.cfg.bucket, ArchiveKey(x.jobId), UrlExpiry);
      && ArgsFollow([meshUp] + ZipEvents(plan.ops), x)
      && ArgsFollow([meshUp] + ZipEvents(plan.ops) + [archiveUp], x)
      && ArgsFollow([meshUp] + ZipEvents(plan.ops) + [archiveUp]
                    + Notify(x.cfg, Body("success", x.jobId, x.userId, x.meshUrl, x.archiveUrl, x.mode, x.maxK), webhookOk).trace, x)
  {
    var plan := ZipDir(x.dumpDir, archiveExists);
    var meshUp := Upload(MeshArtifact, x.meshPath, x.cfg.bucket, MeshKey(x.jobId, x.filename), UrlExpiry);
    var archiveUp := Upload(ArchiveArtifact, plan.archivePath, x.cfg.bucket, ArchiveKey(x.jobId), UrlExpiry);
    UploadArgs(x, archiveExists);
    var zips := ZipEvents(plan.ops);
    ZipArgs(x, archiveExists);
    ArgsAppend([meshUp], zips, x);
    ArgsAppend([meshUp] + zips, [archiveUp], x);
    NotifyArgs(x, webhookOk);
    ArgsAppend([meshUp] + zips + [archiveUp], Notify(x.cfg, Body("success", x.jobId, x.userId, x.meshUrl, x.archiveUrl, x.mode, x.maxK), webhookOk).trace, x);
  }

  lemma DeliverArgs(fx: Effects, x: Expect)
    requires fx.meshUrl == x.meshUrl && fx.archiveUrl == x.archiveUrl
    ensures ArgsFollow(Deliver(x.cfg, fx, x.jobId, x.userId, x.filename, x.mode, x.maxK, x.meshPath, x.dumpDir).trace, x)
  {
    DeliverUnfold(x.cfg, fx, x.jobId, x.userId, x.filename, x.mode, x.maxK, x.meshPath, x.dumpDir);
    DeliveryArgs(x, fx.archiveExists, fx.webhookOk);
    assert ArgsFollow([Upload(MeshArtifact, x.meshPath, x.cfg.bucket, MeshKey(x.jobId, x.filename), UrlExpiry)], x);
  }

  /** The subprocess effects carry the argv the builders produced and run in the PartField root. */
  lemma SubprocessArgs(x: Expect, extractArgv: seq<string>, cl: ClusterStep)
    requires ParseExtractArgv(extractArgv) == Some(ExtractCall(x.cfg.pfCheckpoint, ResultName(x.jobId), x.dataDir, true))
    requires cl.dumpDir == x.dumpDir
    requires cl.argv.Some? ==>
      && ParseMode(x.mode).Some?
      && ParseClusterArgv(cl.argv.value)
         == Some(ClusterCall(x.featRoot, x.dumpDir, x.dataDir, x.maxK, ParseMode(x.mode).value))
    ensures var before := [Extract(extractArgv, x.cfg.pfRoot), MakeDumpDir(cl.dumpDir)];
      && ArgsFollow([Extract(extractArgv, x.cfg.pfRoot)], x)
      && ArgsFollow(before, x)
      && (cl.argv.Some? ==> ArgsFollow(before + [Cluster(cl.argv.value, x.cfg.pfRoot)], x))
  {
    assert CarriesArgs(Extract(extractArgv, x.cfg.pfRoot), x);
    assert CarriesArgs(MakeDumpDir(cl.dumpDir), x);
    if cl.argv.Some? {
      assert CarriesArgs(Cluster(cl.argv.value, x.cfg.pfRoot), x);
    }
  }

  lemma RunStagesArgs(fx: Effects, x: Expect, extractArgv: seq<string>, cl: ClusterStep)
    requires fx.meshUrl == x.meshUrl && fx.archiveUrl == x.archiveUrl
    requires ParseExtractArgv(extractArgv) == Some(ExtractCall(x.cfg.pfCheckpoint, ResultName(x.jobId), x.dataDir, true))
    requires cl.dumpDir == x.dumpDir
    requires cl.argv.Some? ==>
      && ParseMode(x.mode).Some?
      && ParseClusterArgv(cl.argv.value)
         == Some(ClusterCall(x.featRoot, x.dumpDir, x.dataDir, x.maxK, ParseMode(x.mode).value))
    ensures ArgsFollow(RunStages(x.cfg, fx, x.jobId, x.userId, x.filename, x.mode, x.maxK, x.meshPath, extractArgv, cl).trace, x)
  {
    SubprocessArgs(x, extractArgv, cl);
    RunStagesUnfold(x.cfg, fx, x.jobId, x.userId, x.filename, x.mode, x.maxK, x.meshPath, extractArgv, cl);
    if fx.extractOk && cl.argv.Some? && fx.clusterOk {
      var head := [Extract(extractArgv, x.cfg.pfRoot), MakeDumpDir(cl.dumpDir), Cluster(cl.argv.value, x.cfg.pfRoot)];
      var rest := Deliver(x.cfg, fx, x.jobId, x.userId, x.filename, x.mode, x.maxK, x.meshPath, cl.dumpDir);
      DeliverArgs(fx, x);
      ArgsAppend(head, rest.trace, x);
    }
  }

  lemma StagesArgs(fx: Effects, x: Expect)
    requires fx.meshUrl == x.meshUrl && fx.archiveUrl == x.archiveUrl
    requires x.featRoot == FeatureRoot(x.cfg.pfRoot, x.jobId) && x.dumpDir == ClusterDumpDir(x.cfg.pfRoot, x.jobId)
    ensures ArgsFollow(Stages(x.cfg, fx, x.jobId, x.userId, x.filename, x.mode, x.maxK, x.dataDir, x.meshPath).trace, x)
  {
    var ex := PartfieldInference(x.cfg.pfRoot, x.cfg.pfCheckpoint, x.jobId, x.dataDir, true);
    var cl := PartfieldClustering(x.cfg.pfRoot, x.jobId, x.dataDir, ex.featureRoot, x.mode, x.maxK);
    StagesUnfold(x.cfg, fx, x.jobId, x.userId, x.filename, x.mode, x.maxK, x.dataDir, x.meshPath);
    PartfieldInferenceCall(x.cfg.pfRoot, x.cfg.pfCheckpoint, x.jobId, x.dataDir, true);
    PartfieldClusteringCall(x.cfg.pfRoot, x.jobId, x.dataDir, ex.featureRoot, x.mode, x.maxK);
    RunStagesArgs(fx, x, ex.argv, cl);
  }

  /** Acquisition only ever fetches to, or writes, the mesh path. */
  lemma AcquireArgs(src: MeshSource, fx: Effects, x: Expect)
    requires !src.NoMesh?
    ensures ArgsFollow(Acquire(src, x.meshPath, fx).trace, x)
  {
    var got := Acquire(src, x.meshPath, fx);
    forall e | e in got.trace
      ensures CarriesArgs(e, x)
    {
      assert (e.Fetch? || e.WriteMesh?) && e.dest == x.meshPath;
    }
  }

  lemma ThenArgs(got: Step, rest: Run, x: Expect)
    requires ArgsFollow(got.trace, x) && ArgsFollow(rest.trace, x)
    ensures ArgsFollow(Then(got, rest).trace, x)
  {
    if got.fault.None? {
      ArgsAppend(got.trace, rest.trace, x);
    }
  }

  lemma PipelineArgs(cfg: Config, fx: Effects, jobId: string, inp: JobInput, filename: string,
                     mode: string, maxK: int, root: string)
    requires Truthy(inp.userId)
    ensures ArgsFollow(Pipeline(cfg, fx, jobId, inp, filename, mode, maxK, root).trace,
                       Layout(cfg, jobId, inp.userId.value, filename, mode, maxK, root, fx.meshUrl, fx.archiveUrl))
  {
    var x := Layout(cfg, jobId, inp.userId.value, filename, mode, maxK, root, fx.meshUrl, fx.archiveUrl);
    PipelineUnfold(cfg, fx, jobId, inp, filename, mode, maxK, root);
    var src := SelectSource(inp.stlPresignedUrl, inp.meshUrl, inp.meshBase64);
    if !src.NoMesh? {
      AcquireArgs(src, fx, x);
      StagesArgs(fx, x);
      ThenArgs(Acquire(src, x.meshPath, fx), Stages(cfg, fx, jobId, inp.userId.value, filename, mode, maxK, x.dataDir, x.meshPath), x);
    }
  }

  // ----- the handler -----

  /** The pipeline an admitted job runs inside its scratch directory. */
  function PipelineOf(job: Job, cfg: Config, fx: Effects): Run
    requires Admitted(job, fx)
  {
    var inp := job.input;
    Pipeline(cfg, fx, JobId(job.id, fx.uuid), inp, inp.filename.GetOr(DefaultFilename),
             inp.mode.GetOr(DefaultMode), ClusterBound(inp.maxNumClusters).value, ScratchOf(job, fx))
  }

  /** The `try`/`finally` shape: an admitted job runs the pipeline inside
      its scratch directory; any other job has no effects. */
  lemma HandlerShape(job: Job, cfg: Config, fx: Effects)
    ensures var r := Handler(job, cfg, fx);
      && (Admitted(job, fx) ==> r == InScratch(ScratchOf(job, fx), PipelineOf(job, cfg, fx)))
      && (!Admitted(job, fx) ==>
            r.trace == [] && r.outcome in {Raised(PathsMissing), Raised(BadClusterCount), ErrorDict(NoUserMessage), Raised(ScratchFailed)})
  {
  }

  lemma InScratchCluster(root: string, p: Run)
    requires ClusterOnlyAt(p.trace, 3)
    ensures ClusterOnlyAt(InScratch(root, p).trace, 4)
    ensures HasCluster(InScratch(root, p).trace) ==> HasCluster(p.trace)
  {
    ClusterShift([AllocScratch(root)], p.trace, [Cleanup(root)], 3);
  }

  lemma InScratchMesh(root: string, p: Run, dest: string)
    requires MeshOnlyAt(p.trace, 0, dest)
    ensures MeshOnlyAt(InScratch(root, p).trace, 1, dest)
  {
    MeshShift([AllocScratch(root)], p.trace, [Cleanup(root)], 0, dest);
  }

  lemma InScratchRejected(root: string, p: Run)
    requires RejectedMode(p, 1)
    ensures var r := InScratch(root, p);
      r.outcome == Raised(BadMode) && |r.trace| == 5 && r.trace[2].Extract? && r.trace[3].MakeDumpDir?
  {
    var r := InScratch(root, p);
    assert r.trace[2] == p.trace[1] && r.trace[3] == p.trace[2];
  }

  /** Once the scratch directory is allocated it is released on every exit
      (success, the "no mesh" error return, every raised fault), exactly once
      and as the last effect. Before allocation nothing is released, and the
      only exits there are `ensure_paths` failing, `int(max_num_clusters)`
      raising, the missing-user error, and `mkdtemp` raising for a job id that
      holds a `/`. */
  lemma CleanupOnEveryExit(job: Job, cfg: Config, fx: Effects)
    ensures var r := Handler(job, cfg, fx);
      && (r.trace == [] <==> !Admitted(job, fx))
      && (r.trace == [] ==> r.outcome in {Raised(PathsMissing), Raised(BadClusterCount), ErrorDict(NoUserMessage), Raised(ScratchFailed)})
      && (r.trace != [] ==> Bracketed(r.trace, ScratchOf(job, fx)))
  {
    HandlerShape(job, cfg, fx);
    if Admitted(job, fx) {
      var inp := job.input;
      PipelineOrdered(cfg, fx, JobId(job.id, fx.uuid), inp, inp.filename.GetOr(DefaultFilename),
                      inp.mode.GetOr(DefaultMode), ClusterBound(inp.maxNumClusters).value, ScratchOf(job, fx));
      Bracket(PipelineOf(job, cfg, fx).trace, ScratchOf(job, fx));
    }
  }

  /** The handler's effects happen in pipeline order, each at most once:
      allocation, mesh, extraction, dump directory, clustering, mesh upload,
      stale-archive removal, archiving, archive upload, webhook, cleanup. */
  lemma StagesInOrder(job: Job, cfg: Config, fx: Effects)
    ensures Ordered(Handler(job, cfg, fx).trace)
  {
    HandlerShape(job, cfg, fx);
    if Admitted(job, fx) {
      var inp := job.input;
      PipelineOrdered(cfg, fx, JobId(job.id, fx.uuid), inp, inp.filename.GetOr(DefaultFilename),
                      inp.mode.GetOr(DefaultMode), ClusterBound(inp.maxNumClusters).value, ScratchOf(job, fx));
      Bracket(PipelineOf(job, cfg, fx).trace, ScratchOf(job, fx));
    }
  }

  /** A raised fault stops the pipeline at the stage that failed: the last
      effect before cleanup is that stage, and no later stage is attempted.
      The fault is re-raised, never turned into a returned value. */
  lemma FaultStopsLaterStages(job: Job, cfg: Config, fx: Effects)
    ensures var r := Handler(job, cfg, fx);
      r.outcome.Raised? && r.trace != [] ==> HaltsAt(r.trace, r.outcome.fault)
  {
    var r := Handler(job, cfg, fx);
    HandlerShape(job, cfg, fx);
    if Admitted(job, fx) && r.outcome.Raised? {
      var inp := job.input;
      var root := ScratchOf(job, fx);
      var jobId := JobId(job.id, fx.uuid);
      var filename := inp.filename.GetOr(DefaultFilename);
      var mode := inp.mode.GetOr(DefaultMode);
      var maxK := ClusterBound(inp.maxNumClusters).value;
      PipelineOrdered(cfg, fx, jobId, inp, filename, mode, maxK, root);
      PipelineFault(cfg, fx, jobId, inp, filename, mode, maxK, root);
      BracketHalts(PipelineOf(job, cfg, fx).trace, root, r.outcome.fault);
    }
  }

  /** The job returns its success body exactly when every effect it reaches
      succeeds; then both artifacts were uploaded, the mesh first. */
  lemma SucceedsIffAllEffectsSucceed(job: Job, cfg: Config, fx: Effects)
    ensures var r := Handler(job, cfg, fx);
      && (r.outcome.Returned? <==> AllSucceed(job, cfg, fx))
      && (r.outcome.Returned? ==> UploadedBoth(r.trace))
  {
    var r := Handler(job, cfg, fx);
    HandlerShape(job, cfg, fx);
    if Admitted(job, fx) {
      var root := ScratchOf(job, fx);
      var inp := job.input;
      PipelineSuccess(cfg, fx, JobId(job.id, fx.uuid), inp, inp.filename.GetOr(DefaultFilename),
                      inp.mode.GetOr(DefaultMode), ClusterBound(inp.maxNumClusters).value, root);
      if r.outcome.Returned? {
        UploadedBothAfter([AllocScratch(root)], PipelineOf(job, cfg, fx).trace, [Cleanup(root)]);
      }
    }
  }

  /** Storage keys depend only on the job id and file name: the mesh goes to
      `splitted_models/<id>/<filename>` and the archive to
      `splitted_models/<id>/partfield_clustering.zip`, with the default file
      name `input.stl`. */
  lemma UploadKeysAreDeterministic(job: Job, cfg: Config, fx: Effects)
    ensures KeysFollowLayout(Handler(job, cfg, fx).trace, JobId(job.id, fx.uuid), job.input.filename.GetOr(DefaultFilename))
  {
    HandlerShape(job, cfg, fx);
    if Admitted(job, fx) {
      var root := ScratchOf(job, fx);
      var inp := job.input;
      var jobId := JobId(job.id, fx.uuid);
      var filename := inp.filename.GetOr(DefaultFilename);
      var p := PipelineOf(job, cfg, fx);
      PipelineKeys(cfg, fx, jobId, inp, filename, inp.mode.GetOr(DefaultMode), ClusterBound(inp.maxNumClusters).value, root);
      assert KeysFollowLayout([AllocScratch(root)], jobId, filename);
      assert KeysFollowLayout([Cleanup(root)], jobId, filename);
      KeysAppend([AllocScratch(root)], p.trace, jobId, filename);
      KeysAppend([AllocScratch(root)] + p.trace, [Cleanup(root)], jobId, filename);
    }
  }

  lemma InScratchArgs(p: Run, x: Expect)
    requires ArgsFollow(p.trace, x)
    ensures ArgsFollow(InScratch(x.root, p).trace, x)
  {
    assert ArgsFollow([AllocScratch(x.root)], x);
    assert ArgsFollow([Cleanup(x.root)], x);
    ArgsAppend([AllocScratch(x.root)], p.trace, x);
    ArgsAppend([AllocScratch(x.root)] + p.trace, [Cleanup(x.root)], x);
  }

  lemma WebhookCarriesBody(t: seq<Event>, x: Expect)
    requires ArgsFollow(t, x)
    ensures forall e :: e in t && e.Webhook? ==>
      e.payload == Body("success", x.jobId, x.userId, x.meshUrl, x.archiveUrl, x.mode, x.maxK)
  {
    forall e | e in t && e.Webhook?
      ensures e.payload == Body("success", x.jobId, x.userId, x.meshUrl, x.archiveUrl, x.mode, x.maxK)
    {
      assert CarriesArgs(e, x);
    }
  }

  /** The arguments an admitted job's effects are expected to carry. */
  function ExpectOf(job: Job, cfg: Config, fx: Effects): Expect
    requires Admitted(job, fx)
  {
    var inp := job.input;
    Layout(cfg, JobId(job.id, fx.uuid), inp.userId.value, inp.filename.GetOr(DefaultFilename),
           inp.mode.GetOr(DefaultMode), ClusterBound(inp.maxNumClusters).value, ScratchOf(job, fx),
           fx.meshUrl, fx.archiveUrl)
  }

  /** Every effect carries the arguments the job and the settings prescribe
      (`CarriesArgs`): the mesh goes to `<scratch>/data/<filename>` and is
      uploaded from there; extraction runs in the PartField root with the
      configured checkpoint, the job's result name, the data directory and
      preprocessing on; clustering reads the job's features and writes the
      job's dump directory with the requested bound and mode; the archive
      uploaded is `<dump dir>.zip`; both uploads use the configured bucket and
      a one-hour expiry; the webhook payload is the body the handler returns. */
  lemma StageArguments(job: Job, cfg: Config, fx: Effects)
    ensures var r := Handler(job, cfg, fx);
      && (Admitted(job, fx) ==> ArgsFollow(r.trace, ExpectOf(job, cfg, fx)))
      && (r.outcome.Returned? ==> forall e :: e in r.trace && e.Webhook? ==> e.payload == r.outcome.body)
  {
    HandlerShape(job, cfg, fx);
    var r := Handler(job, cfg, fx);
    if Admitted(job, fx) {
      var x := ExpectOf(job, cfg, fx);
      var p := PipelineOf(job, cfg, fx);
      PipelineArgs(cfg, fx, x.jobId, job.input, x.filename, x.mode, x.maxK, x.root);
      InScratchArgs(p, x);
      if r.outcome.Returned? {
        var body := Body("success", x.jobId, x.userId, x.meshUrl, x.archiveUrl, x.mode, x.maxK);
        assert r.outcome.body == body;
        WebhookCarriesBody(r.trace, x);
      }
    }
  }


  /** Clustering runs only after a successful extraction and with a valid
      mode: a clustering effect is the fifth effect, preceded by the extraction
      and the creation of the dump directory. */
  lemma ClusteringNeedsExtraction(job: Job, cfg: Config, fx: Effects)
    ensures var t := Handler(job, cfg, fx).trace;
      && ClusterOnlyAt(t, 4)
      && (HasCluster(t) ==> fx.extractOk && ParseMode(job.input.mode.GetOr(DefaultMode)).Some?)
  {
    HandlerShape(job, cfg, fx);
    if Admitted(job, fx) {
      var root := ScratchOf(job, fx);
      var inp := job.input;
      PipelineOrdered(cfg, fx, JobId(job.id, fx.uuid), inp, inp.filename.GetOr(DefaultFilename),
                      inp.mode.GetOr(DefaultMode), ClusterBound(inp.maxNumClusters).value, root);
      InScratchCluster(root, PipelineOf(job, cfg, fx));
    }
  }

  /** A missing or empty `user_id` is answered with the error dictionary
      before any scratch directory exists, once the toolchain paths are present
      and the cluster bound parsed. */
  lemma MissingUserReturnsError(job: Job, cfg: Config, fx: Effects)
    requires fx.pathsOk && ClusterBound(job.input.maxNumClusters).Some?
    requires !Truthy(job.input.userId)
    ensures Handler(job, cfg, fx) == Run([], ErrorDict(NoUserMessage))
  {
  }

  /** The error dictionary is returned only for a missing user id or a missing
      mesh source, once the checks that come before them pass; every other
      failure is an exception that escapes the handler. */
  lemma ErrorDictOnlyForMissingInputs(job: Job, cfg: Config, fx: Effects)
    ensures var r := Handler(job, cfg, fx);
      && (r.outcome.ErrorDict? <==>
            fx.pathsOk && ClusterBound(job.input.maxNumClusters).Some?
            && (!Truthy(job.input.userId) || (ScratchCreatable(JobId(job.id, fx.uuid)) && SourceOf(job).NoMesh?)))
      && (r.outcome.ErrorDict? ==>
            r.outcome.message == if Truthy(job.input.userId) then NoMeshMessage else NoUserMessage)
  {
    HandlerShape(job, cfg, fx);
    if Admitted(job, fx) {
      var inp := job.input;
      PipelineError(cfg, fx, JobId(job.id, fx.uuid), inp, inp.filename.GetOr(DefaultFilename),
                    inp.mode.GetOr(DefaultMode), ClusterBound(inp.maxNumClusters).value, ScratchOf(job, fx));
    }
  }

  /** `mkdtemp` creates `/tmp/job_<id>_<random>`, whose parent exists. The
      id passes `ScratchCreatable` exactly when the name after `/tmp/` is a
      single path component, i.e. the directory to create sits directly in
      `/tmp`; otherwise its parent is a missing `/tmp/job_<head>`. */
  lemma ScratchDirectlyInTmp(jobId: string, scratchName: string)
    requires '/' !in scratchName
    ensures var root := ScratchRoot(jobId, scratchName);
      && root == ScratchParent + "/" + ("job_" + jobId + "_" + scratchName)
      && (ScratchCreatable(jobId) <==> '/' !in root[|ScratchParent| + 1..])
  {
    var name := "job_" + jobId + "_" + scratchName;
    assert name[0] == 'j';
    var root := ScratchRoot(jobId, scratchName);
    assert root[|ScratchParent| + 1..] == name;
    assert '/' !in "job_" && '/' !in "_";
  }

  /** A job id holding a `/` makes `mkdtemp` raise once the user check has
      passed. No scratch directory exists yet, so nothing is cleaned up and the
      exception escapes; such a job never fetches, runs a tool or uploads. */
  lemma SlashedJobIdFailsAtScratch(job: Job, cfg: Config, fx: Effects)
    requires '/' in JobId(job.id, fx.uuid)
    ensures var r := Handler(job, cfg, fx);
      && r.trace == []
      && (fx.pathsOk && ClusterBound(job.input.maxNumClusters).Some? && Truthy(job.input.userId) ==>
            r.outcome == Raised(ScratchFailed))
  {
    HandlerShape(job, cfg, fx);
  }

  /** With no mesh source the error dictionary is returned after the scratch
      directory was created, and it is still removed; nothing is fetched. */
  lemma MissingMeshReturnsErrorAfterAllocation(job: Job, cfg: Config, fx: Effects)
    requires Admitted(job, fx)
    requires SourceOf(job).NoMesh?
    ensures Handler(job, cfg, fx)
      == Run([AllocScratch(ScratchOf(job, fx)), Cleanup(ScratchOf(job, fx))], ErrorDict(NoMeshMessage))
  {
    HandlerShape(job, cfg, fx);
    var inp := job.input;
    PipelineError(cfg, fx, JobId(job.id, fx.uuid), inp, inp.filename.GetOr(DefaultFilename),
                  inp.mode.GetOr(DefaultMode), ClusterBound(inp.maxNumClusters).value, ScratchOf(job, fx));
  }

  /** An unknown `mode` is only rejected after the extraction subprocess ran
      and the dump directory was created; clustering never runs. */
  lemma InvalidModeRejectedAfterExtraction(job: Job, cfg: Config, fx: Effects)
    requires Admitted(job, fx) && Acquired(SourceOf(job), fx) && fx.extractOk
    requires ParseMode(job.input.mode.GetOr(DefaultMode)).None?
    ensures var r := Handler(job, cfg, fx);
      && r.outcome == Raised(BadMode)
      && |r.trace| == 5 && r.trace[2].Extract? && r.trace[3].MakeDumpDir?
      && !HasCluster(r.trace)
  {
    HandlerShape(job, cfg, fx);
    var inp := job.input;
    var root := ScratchOf(job, fx);
    PipelineBadMode(cfg, fx, JobId(job.id, fx.uuid), inp, inp.filename.GetOr(DefaultFilename),
                    inp.mode.GetOr(DefaultMode), ClusterBound(inp.maxNumClusters).value, root);
    ClusteringNeedsExtraction(job, cfg, fx);
    InScratchRejected(root, PipelineOf(job, cfg, fx));
  }

  /** The mesh lands in the job's data directory, unless the requested file
      name is absolute: `os.path.join` then discards the scratch directory and
      the mesh is written to that absolute path instead. */
  lemma MeshDestination(job: Job, cfg: Config, fx: Effects)
    ensures var t := Handler(job, cfg, fx).trace;
      var filename := job.input.filename.GetOr(DefaultFilename);
      var root := ScratchOf(job, fx);
      var dest := PathJoin(PathJoin(root, "data"), filename);
      && MeshOnlyAt(t, 1, dest)
      && (!IsAbsolute(filename) ==> dest == PathJoin(root, "data") + "/" + filename && StartsWith(dest, root))
      && (IsAbsolute(filename) ==> dest == filename)
  {
    HandlerShape(job, cfg, fx);
    var inp := job.input;
    var root := ScratchOf(job, fx);
    var filename := inp.filename.GetOr(DefaultFilename);
    var dataDir := PathJoin(root, "data");
    var dest := PathJoin(dataDir, filename);
    if Admitted(job, fx) {
      PipelineOrdered(cfg, fx, JobId(job.id, fx.uuid), inp, filename,
                      inp.mode.GetOr(DefaultMode), ClusterBound(inp.maxNumClusters).value, root);
      InScratchMesh(root, PipelineOf(job, cfg, fx), dest);
    }
    if !IsAbsolute(filename) {
      assert dataDir[|dataDir| - 1] == 'a';
      assert dest == dataDir + "/" + filename;
      assert dataDir[..|root|] == root;
      assert dest[..|root|] == dataDir[..|root|];
    }
  }

  /** The containment `MeshDestination` proves is lexical: a relative name with
      `..` components keeps the scratch directory as a prefix of the path it
      writes, yet after resolution names a file outside the data directory and
      outside the tree that cleanup removes. */
  lemma MeshNameMayClimbOut(job: Job, cfg: Config, fx: Effects)
    requires job.input.filename == Some("../../etc/x.stl")
    ensures var root := ScratchOf(job, fx);
      var dest := PathJoin(PathJoin(root, "data"), "../../etc/x.stl");
      && MeshOnlyAt(Handler(job, cfg, fx).trace, 1, dest)
      && dest == PathJoin(root, "data") + "/" + "../../etc/x.stl"
      && StartsWith(dest, root)
  {
    assert job.input.filename.GetOr(DefaultFilename) == "../../etc/x.stl";
    assert !IsAbsolute("../../etc/x.stl");
    MeshDestination(job, cfg, fx);
  }

  lemma PipelineWriteFails(cfg: Config, fx: Effects, jobId: string, inp: JobInput, filename: string,
                           mode: string, maxK: int, root: string)
    requires Truthy(inp.userId)
    requires SelectSource(inp.stlPresignedUrl, inp.meshUrl, inp.meshBase64).InlineBase64?
    requires var p := SelectSource(inp.stlPresignedUrl, inp.meshUrl, inp.meshBase64).payload;
      fx.decode(p).Some? && fx.decode(p).value != [] && !fx.writeOk
    ensures var p := SelectSource(inp.stlPresignedUrl, inp.meshUrl, inp.meshBase64).payload;
      Pipeline(cfg, fx, jobId, inp, filename, mode, maxK, root)
        == Run([WriteMesh(PathJoin(PathJoin(root, "data"), filename), fx.decode(p).value)], Raised(WriteFailed))
  {
    PipelineUnfold(cfg, fx, jobId, inp, filename, mode, maxK, root);
    var src := SelectSource(inp.stlPresignedUrl, inp.meshUrl, inp.meshBase64);
    var meshPath := PathJoin(PathJoin(root, "data"), filename);
    var bytes := fx.decode(src.payload).value;
    assert Acquire(src, meshPath, fx) == Step([WriteMesh(meshPath, bytes)], Some(WriteFailed));
  }

  /** An inline mesh whose write fails (an empty or `/`-terminated file name
      makes the path a directory) raises after the write was attempted, and the
      scratch directory is still removed. */
  lemma FailedMeshWriteRaises(job: Job, cfg: Config, fx: Effects)
    requires Admitted(job, fx) && SourceOf(job).InlineBase64?
    requires fx.decode(SourceOf(job).payload).Some? && fx.decode(SourceOf(job).payload).value != []
    requires !fx.writeOk
    ensures var root := ScratchOf(job, fx);
      var dest := PathJoin(PathJoin(root, "data"), job.input.filename.GetOr(DefaultFilename));
      Handler(job, cfg, fx)
        == Run([AllocScratch(root), WriteMesh(dest, fx.decode(SourceOf(job).payload).value), Cleanup(root)], Raised(WriteFailed))
  {
    HandlerShape(job, cfg, fx);
    var inp := job.input;
    var root := ScratchOf(job, fx);
    PipelineWriteFails(cfg, fx, JobId(job.id, fx.uuid), inp, inp.filename.GetOr(DefaultFilename),
                       inp.mode.GetOr(DefaultMode), ClusterBound(inp.maxNumClusters).value, root);
    InScratchSingle(root, PipelineOf(job, cfg, fx));
  }

  lemma InScratchSingle(root: string, p: Run)
    requires |p.trace| == 1
    ensures InScratch(root, p) == Run([AllocScratch(root), p.trace[0], Cleanup(root)], p.outcome)
  {
    assert [AllocScratch(root)] + p.trace + [Cleanup(root)] == [AllocScratch(root), p.trace[0], Cleanup(root)];
  }
}
