/**
 The two command lines the part-splitter issues to the external PartField
 toolchain (feature extraction, then clustering), the output directories it
 expects them to write, and decoders that read each command line back. The
 decoders are the partners of the builders: a round trip shows that every
 argument the handler means to pass is recoverable from the argv, unambiguously.
 */
module PartField {
  import opened JobTypes
  import opened PyText

  const DefaultRoot := "/workspace/PartField/partfield"
  const DefaultCheckpoint := "/runpod-volume/model/model_objaverse.ckpt"

  // ----- feature extraction -----

  /** The fixed head of the extraction command, up to the checkpoint value. */
  const ExtractHead: seq<string> :=
    ["python", "partfield_inference.py", "-c", "configs/final/demo.yaml", "--opts", "continue_ckpt"]

  const PreprocessFlag: seq<string> := ["preprocess_mesh", "True"]

  /** The `result_name` override: the job id under a `partfield_features/` namespace. */
  function ResultName(jobId: string): (r: string)
    ensures EndsWith(r, jobId)
  {
    "partfield_features/" + jobId
  }

  /** The argv of the extraction subprocess. */
  function ExtractArgv(checkpoint: string, jobId: string, dataDir: string, preprocess: bool): seq<string> {
    ExtractHead + [checkpoint, "result_name", ResultName(jobId), "dataset.data_path", dataDir]
      + (if preprocess then PreprocessFlag else [])
  }

  /** `os.path.join(root, "exp_results", category, job_id)`: a per-job output
      directory of the toolchain. */
  function OutputDir(root: string, category: string, jobId: string): (r: string)
    ensures EndsWith(r, jobId)
    ensures !IsAbsolute(jobId) && !IsAbsolute(category) ==> StartsWith(r, root)
  {
    PathJoin(PathJoin(PathJoin(root, "exp_results"), category), jobId)
  }

  /** The directory the handler assumes holds the extracted features. */
  function FeatureRoot(root: string, jobId: string): string {
    OutputDir(root, "partfield_features", jobId)
  }

  /** What an extraction command line asks of the tool. */
  datatype ExtractCall = ExtractCall(checkpoint: string, resultName: string, dataPath: string, preprocess: bool)

  /** Reads an extraction argv back; `None` for anything the builder cannot produce. */
  function ParseExtractArgv(a: seq<string>): Option<ExtractCall> {
    if (|a| == 11 || (|a| == 13 && a[11..] == PreprocessFlag))
       && a[..6] == ExtractHead && a[7] == "result_name" && a[9] == "dataset.data_path"
    then Some(ExtractCall(a[6], a[8], a[10], |a| == 13))
    else None
  }

  /** The model of `partfield_inference` without its subprocess: the argv it
      runs and the feature path it returns. */
  datatype ExtractStep = ExtractStep(argv: seq<string>, featureRoot: string)

  function PartfieldInference(root: string, checkpoint: string, jobId: string, dataDir: string, preprocess: bool): ExtractStep {
    ExtractStep(ExtractArgv(checkpoint, jobId, dataDir, preprocess), FeatureRoot(root, jobId))
  }

  /** `partfield_inference` asks the tool for the configured checkpoint, the
      job's result name and the data directory, and reports the feature
      directory under `exp_results` as the place the features went. */
  lemma PartfieldInferenceCall(root: string, checkpoint: string, jobId: string, dataDir: string, preprocess: bool)
    ensures var r := PartfieldInference(root, checkpoint, jobId, dataDir, preprocess);
      && ParseExtractArgv(r.argv) == Some(ExtractCall(checkpoint, ResultName(jobId), dataDir, preprocess))
      && r.featureRoot == FeatureRoot(root, jobId)
  {
    ExtractArgvRoundTrip(checkpoint, jobId, dataDir, preprocess);
  }

  /** Every extraction argv reads back as the call it encodes. */
  lemma ExtractArgvRoundTrip(checkpoint: string, jobId: string, dataDir: string, preprocess: bool)
    ensures ParseExtractArgv(ExtractArgv(checkpoint, jobId, dataDir, preprocess))
            == Some(ExtractCall(checkpoint, ResultName(jobId), dataDir, preprocess))
  {
    var opts := [checkpoint, "result_name", ResultName(jobId), "dataset.data_path", dataDir];
    var flag: seq<string> := if preprocess then PreprocessFlag else [];
    var a := ExtractHead + opts + flag;
    assert a == ExtractArgv(checkpoint, jobId, dataDir, preprocess);
    assert |a| == 11 + |flag|;
    assert a[..6] == ExtractHead;
    assert a[6..11] == opts;
    assert a[11..] == flag;
    assert a[6] == checkpoint && a[7] == "result_name" && a[8] == ResultName(jobId);
    assert a[9] == "dataset.data_path" && a[10] == dataDir;
  }

  /** The extraction argv ends with `preprocess_mesh True` exactly when
      preprocessing is requested. */
  lemma ExtractArgvPreprocessSuffix(checkpoint: string, jobId: string, dataDir: string, preprocess: bool)
    ensures var a := ExtractArgv(checkpoint, jobId, dataDir, preprocess);
      |a| >= 2 && (a[|a| - 2..] == PreprocessFlag <==> preprocess)
  {
    var a := ExtractArgv(checkpoint, jobId, dataDir, preprocess);
    if !preprocess {
      assert a[|a| - 2] == "dataset.data_path";
    }
  }

  /** Two extraction command lines are equal only for equal arguments. */
  lemma ExtractArgvInjective(c1: string, j1: string, d1: string, p1: bool, c2: string, j2: string, d2: string, p2: bool)
    requires ExtractArgv(c1, j1, d1, p1) == ExtractArgv(c2, j2, d2, p2)
    ensures c1 == c2 && j1 == j2 && d1 == d2 && p1 == p2
  {
    ExtractArgvRoundTrip(c1, j1, d1, p1);
    ExtractArgvRoundTrip(c2, j2, d2, p2);
    assert ResultName(j1) == ResultName(j2);
    assert j1 == ResultName(j1)[19..];
  }

  /** When the job id is relative, the returned feature path is exactly where
      the tool, run in `root`, writes `exp_results/<result_name>`. An absolute
      job id breaks this: `os.path.join` then returns the id itself. */
  lemma FeatureRootIsResultDir(root: string, jobId: string)
    requires root != "" && root[|root| - 1] != '/'
    ensures !IsAbsolute(jobId) ==>
      FeatureRoot(root, jobId) == PathJoin(PathJoin(root, "exp_results"), ResultName(jobId))
      && FeatureRoot(root, jobId) == root + "/exp_results/partfield_features/" + jobId
    ensures IsAbsolute(jobId) ==> FeatureRoot(root, jobId) == jobId
  {
    JoinOnto(root, "exp_results");
    var results := PathJoin(root, "exp_results");
    JoinOnto(results, "partfield_features");
    var features := PathJoin(results, "partfield_features");
    if !IsAbsolute(jobId) {
      assert FeatureRoot(root, jobId) == features + "/" + jobId;
      assert ResultName(jobId) == "partfield_features/" + jobId;
      Regroup(results, "/", "partfield_features", jobId);
      FeatureTailSpelling();
      RegroupTail(root, "/", "exp_results", "partfield_features", jobId);
    }
  }

  /** Joining a relative name that does not end in `/` onto a non-empty
      directory that does not either inserts exactly one `/`, and the result
      again does not end in `/`. */
  lemma JoinOnto(dir: string, name: string)
    requires dir != "" && dir[|dir| - 1] != '/'
    requires name != "" && !IsAbsolute(name) && name[|name| - 1] != '/'
    ensures var r := PathJoin(dir, name);
      r == dir + "/" + name && r != "" && r[|r| - 1] != '/'
  {
    var r := PathJoin(dir, name);
    assert r[|r| - 1] == name[|name| - 1];
  }

  /** `(d + sep + n) + sep + t` and `d + sep + (n + sep + t)` spell the same path. */
  lemma Regroup(d: string, sep: string, n: string, t: string)
    ensures d + sep + n + sep + t == d + sep + (n + sep + t)
  {
  }

  /** A path of three components joined by `sep`, with the middle ones and
      all three separators grouped together. */
  lemma RegroupTail(d: string, sep: string, a: string, b: string, t: string)
    ensures d + sep + a + sep + (b + sep + t) == d + (sep + a + sep + b + sep) + t
  {
  }

  lemma FeatureTailSpelling()
    ensures "/" + "exp_results" + "/" + "partfield_features" + "/" == "/exp_results/partfield_features/"
    ensures "partfield_features" + "/" == "partfield_features/"
  {
  }

  // ----- clustering -----

  /** The clustering algorithms the tool offers. */
  datatype Mode = Agglo | AggloKnn | KMeans

  function ModeName(m: Mode): string {
    match m
    case Agglo => "agglo"
    case AggloKnn => "agglo_knn"
    case KMeans => "kmeans"
  }

  /** The `if`/`elif` chain on the request's `mode` string. */
  function ParseMode(s: string): (m: Option<Mode>)
    ensures m.Some? <==> s == "agglo" || s == "agglo_knn" || s == "kmeans"
    ensures m.Some? ==> ModeName(m.value) == s
  {
    if s == "agglo" then Some(Agglo)
    else if s == "agglo_knn" then Some(AggloKnn)
    else if s == "kmeans" then Some(KMeans)
    else None
  }

  /** The flags appended to the base clustering command for each mode. */
  function ModeFlags(m: Mode): seq<string> {
    match m
    case Agglo => ["--use_agglo", "True", "--option", "0"]
    case AggloKnn => ["--use_agglo", "True", "--option", "1", "--with_knn", "True"]
    case KMeans => []
  }

  /** Reads a mode back from its flags. */
  function FlagsMode(f: seq<string>): (m: Option<Mode>)
    ensures m.Some? ==> ModeFlags(m.value) == f
  {
    if f == ModeFlags(Agglo) then Some(Agglo)
    else if f == ModeFlags(AggloKnn) then Some(AggloKnn)
    else if f == [] then Some(KMeans)
    else None
  }

  /** The directory clustering writes into, created before the mode is checked. */
  function ClusterDumpDir(root: string, jobId: string): string {
    OutputDir(root, "clustering", jobId)
  }

  /** For relative job ids, under any toolchain root, the features and the
      clustering output of any two jobs never share a directory: the two paths
      part right after `exp_results/`. */
  lemma OutputDirsDisjoint(root: string, j1: string, j2: string)
    requires !IsAbsolute(j1) && !IsAbsolute(j2)
    ensures FeatureRoot(root, j1) != ClusterDumpDir(root, j2)
  {
    var results := PathJoin(root, "exp_results");
    assert results[|results| - 1] == 's';
    CategoryFollowsResults(results, "partfield_features", j1);
    CategoryFollowsResults(results, "clustering", j2);
  }

  /** Below a results directory that does not end in `/`, the category's first
      character sits right after the separator. */
  lemma CategoryFollowsResults(results: string, category: string, jobId: string)
    requires results != "" && results[|results| - 1] != '/'
    requires category != "" && !IsAbsolute(category) && category[|category| - 1] != '/'
    requires !IsAbsolute(jobId)
    ensures var d := PathJoin(PathJoin(results, category), jobId);
      |d| > |results| + 1 && d[|results| + 1] == category[0]
  {
    var c := PathJoin(results, category);
    assert c == results + "/" + category;
    assert c[|c| - 1] == category[|category| - 1];
    var d := PathJoin(c, jobId);
    assert d == c + "/" + jobId;
    assert d[|results| + 1] == c[|results| + 1] == category[0];
  }

  /** The mode-independent part of the clustering command. */
  function ClusterBase(featRoot: string, dumpDir: string, sourceDir: string, maxClusters: int): seq<string> {
    ["python", "run_part_clustering.py", "--root", featRoot, "--dump_dir", dumpDir,
     "--source_dir", sourceDir, "--max_num_clusters", IntToString(maxClusters)]
  }

  function ClusterArgv(featRoot: string, dumpDir: string, sourceDir: string, maxClusters: int, m: Mode): seq<string> {
    ClusterBase(featRoot, dumpDir, sourceDir, maxClusters) + ModeFlags(m)
  }

  /** What a clustering command line asks of the tool. */
  datatype ClusterCall = ClusterCall(featRoot: string, dumpDir: string, sourceDir: string, maxClusters: int, mode: Mode)

  /** Reads a clustering argv back; `None` for anything the builder cannot produce. */
  function ParseClusterArgv(a: seq<string>): Option<ClusterCall> {
    if |a| >= 10 && a[0] == "python" && a[1] == "run_part_clustering.py" && a[2] == "--root"
       && a[4] == "--dump_dir" && a[6] == "--source_dir" && a[8] == "--max_num_clusters"
       && ParseInt(a[9]).Some? && FlagsMode(a[10..]).Some?
    then Some(ClusterCall(a[3], a[5], a[7], ParseInt(a[9]).value, FlagsMode(a[10..]).value))
    else None
  }

  /** The model of `partfield_clustering` without its effects: the dump
      directory it creates first, and the argv it runs, or `None` when the mode
      is rejected with `ValueError` (after the directory was already created). */
  datatype ClusterStep = ClusterStep(dumpDir: string, argv: Option<seq<string>>)

  function PartfieldClustering(root: string, jobId: string, dataDir: string, featRoot: string, mode: string, maxClusters: int): (r: ClusterStep)
    ensures r.dumpDir == ClusterDumpDir(root, jobId)
    ensures r.argv.None? <==> ParseMode(mode).None?
  {
    var dumpDir := ClusterDumpDir(root, jobId);
    match ParseMode(mode)
    case None => ClusterStep(dumpDir, None)
    case Some(m) => ClusterStep(dumpDir, Some(ClusterArgv(featRoot, dumpDir, dataDir, maxClusters, m)))
  }

  /** For a known mode, `partfield_clustering` asks the tool to cluster the
      given features into the dump directory, reading the meshes from the data
      directory, with the given cluster bound and the mode's flags. */
  lemma PartfieldClusteringCall(root: string, jobId: string, dataDir: string, featRoot: string, mode: string, maxClusters: int)
    ensures var r := PartfieldClustering(root, jobId, dataDir, featRoot, mode, maxClusters);
      r.argv.Some? ==>
        ParseClusterArgv(r.argv.value) == Some(ClusterCall(featRoot, r.dumpDir, dataDir, maxClusters, ParseMode(mode).value))
  {
    var r := PartfieldClustering(root, jobId, dataDir, featRoot, mode, maxClusters);
    if r.argv.Some? {
      ClusterArgvRoundTrip(featRoot, r.dumpDir, dataDir, maxClusters, ParseMode(mode).value);
    }
  }

  /** Every clustering argv reads back as the call it encodes: the
      `--max_num_clusters` value is the decimal rendering of the bound, and the
      trailing flags identify the mode. */
  lemma ClusterArgvRoundTrip(featRoot: string, dumpDir: string, sourceDir: string, maxClusters: int, m: Mode)
    ensures ParseClusterArgv(ClusterArgv(featRoot, dumpDir, sourceDir, maxClusters, m))
            == Some(ClusterCall(featRoot, dumpDir, sourceDir, maxClusters, m))
  {
    var a := ClusterArgv(featRoot, dumpDir, sourceDir, maxClusters, m);
    ParseIntToString(maxClusters);
    assert a[9] == IntToString(maxClusters);
    assert a[10..] == ModeFlags(m);
  }

  /** Every clustering command starts with the base command and its suffix is
      fixed by the mode: `agglo` and `agglo_knn` enable agglomeration, only
      `agglo_knn` adds the k-nearest-neighbour graph, and `kmeans` adds nothing. */
  lemma ClusterArgvShape(featRoot: string, dumpDir: string, sourceDir: string, maxClusters: int, m: Mode)
    ensures var a := ClusterArgv(featRoot, dumpDir, sourceDir, maxClusters, m);
      && a[..10] == ClusterBase(featRoot, dumpDir, sourceDir, maxClusters)
      && (m == KMeans <==> |a| == 10)
      && (m != KMeans ==> a[10..12] == ["--use_agglo", "True"])
      && (m == AggloKnn <==> |a| == 16)
      && (m == AggloKnn ==> a[14..] == ["--with_knn", "True"])
  {
  }
}
