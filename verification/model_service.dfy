/**
 The standalone HTTP service's `/generate/` endpoint: it turns an uploaded
 image into an STL file under `./models`, named after the upload with its last
 extension replaced by `.stl`. The name derivation is Python's
 `filename.rsplit(".", 1)[0] + ".stl"`; the endpoint's effects are a trace over
 an oracle, as for the job handlers.
 */
module ModelService {
  import opened JobTypes
  import opened PyText

  const ModelsDir := "./models"
  const StlSuffix := ".stl"
  const ServiceOctree := 180
  const ServiceSteps := 10
  const ServiceChunks := 60000
  const ServiceSeed := 12355

  /** The index of the last `.` in `s`, if any. */
  function LastDot(s: string): (r: Option<nat>)
    ensures r.Some? ==> r.value < |s| && s[r.value] == '.' && '.' !in s[r.value + 1..]
    ensures r.None? <==> '.' !in s
    decreases |s|
  {
    if s == [] then None
    else if s[|s| - 1] == '.' then Some(|s| - 1)
    else
      var r := LastDot(s[..|s| - 1]);
      assert s == s[..|s| - 1] + [s[|s| - 1]];
      if r.Some? then
        assert s[r.value + 1..] == s[..|s| - 1][r.value + 1..] + [s[|s| - 1]];
        r
      else r
  }

  /** `s.rsplit(".", 1)[0]`: everything before the last dot, or all of `s`. */
  function Stem(s: string): (r: string)
    ensures '.' !in s ==> r == s
    ensures '.' in s ==> exists ext :: '.' !in ext && s == r + "." + ext
  {
    match LastDot(s)
    case None => s
    case Some(i) =>
      assert s == s[..i] + "." + s[i + 1..];
      s[..i]
  }

  /** The name of the exported STL file for an upload called `s`. */
  function OutputName(s: string): (r: string)
    ensures EndsWith(r, StlSuffix)
  {
    Stem(s) + StlSuffix
  }

  /** `f"./models/{output_name}"`. */
  function OutputPath(name: string): (r: string)
    ensures StartsWith(r, ModelsDir + "/") && r[|ModelsDir| + 1..] == name
  {
    ModelsDir + "/" + name
  }

  /** The last dot is found at the separator whenever the extension after it
      holds no dot, whatever dots the part before it holds. */
  lemma {:induction false} LastDotOfExtension(p: string, ext: string)
    requires '.' !in ext
    ensures LastDot(p + "." + ext) == Some(|p|)
  {
    var s := p + "." + ext;
    var r := LastDot(s);
    assert s[|p|] == '.';
    assert s[|p| + 1..] == ext;
    assert s[|p|] in s;
    if r.None? {
      assert false;
    }
    var i := r.value;
    assert forall k :: |p| < k < |s| ==> s[k] == ext[k - |p| - 1];
    if i < |p| {
      assert false;
    } else if i > |p| {
      assert false;
    }
  }

  /** Only the last extension is replaced: `a.b.png` becomes `a.b.stl`. */
  lemma ReplacesLastExtension(p: string, ext: string)
    requires '.' !in ext
    ensures OutputName(p + "." + ext) == p + StlSuffix
  {
    LastDotOfExtension(p, ext);
    assert (p + "." + ext)[..|p|] == p;
  }

  /** A name without a dot keeps all of itself and gains `.stl`. */
  lemma NoDotAppendsSuffix(s: string)
    requires '.' !in s
    ensures OutputName(s) == s + StlSuffix
  {
  }

  /** A name that already ends in `.stl` is its own output name. */
  lemma StlNameIsFixed(s: string)
    requires EndsWith(s, StlSuffix)
    ensures OutputName(s) == s
  {
    var p := s[..|s| - 4];
    assert s == p + "." + "stl";
    ReplacesLastExtension(p, "stl");
  }

  /** Deriving the output name twice changes nothing. */
  lemma OutputNameIdempotent(s: string)
    ensures OutputName(OutputName(s)) == OutputName(s)
  {
    StlNameIsFixed(OutputName(s));
  }

  /** A file name with no `/` yields an output path directly inside `./models`;
      one with `/` does not (`../x.png` becomes `./models/../x.stl`). */
  lemma OutputStaysInModelsDir(s: string)
    requires '/' !in s
    ensures '/' !in OutputName(s)
    ensures OutputPath(OutputName(s)) == ModelsDir + "/" + OutputName(s)
  {
    var st := Stem(s);
    if '.' in s {
      var ext :| '.' !in ext && s == st + "." + ext;
      assert forall k :: 0 <= k < |st| ==> st[k] == s[k];
    }
    assert OutputName(s) == st + StlSuffix;
  }

  // ----- the endpoint -----

  /** The answers the outside world gives to one request. */
  datatype Effects = Effects(
    dirOk: bool,        // `os.makedirs("./models", exist_ok=True)`
    imageOk: bool,      // PIL opens the uploaded bytes
    inferOk: bool,      // the shape pipeline
    exportOk: bool)     // trimesh export to the output path

  datatype Event =
    | MakeDirs(dir: string)
    | Infer(octree: nat, steps: nat, chunks: nat, seed: nat)
    | Export(path: string)

  datatype Fault = DirFailed | BadImage | InferFailed | NoFilename | ExportFailed

  /** `FileResponse(output_path, filename=output_name)`. */
  datatype Response = Response(path: string, name: string)

  datatype Run = Run(trace: seq<Event>, outcome: Outcome<Response, Fault>)

  /** `generate_model` for an upload whose `filename` may be absent; the
      file name is first used after inference, when its extension is replaced.
      A failure to create `./models` raises before anything else happens. */
  function GenerateModel(filename: Option<string>, fx: Effects): (r: Run)
    ensures |r.trace| >= 1 && r.trace[0] == MakeDirs(ModelsDir)
    ensures !fx.dirOk ==> r == Run([MakeDirs(ModelsDir)], Raised(DirFailed))
    ensures r.outcome.Returned? ==> filename.Some? && r.outcome.body == Response(OutputPath(OutputName(filename.value)), OutputName(filename.value))
  {
    var mk := MakeDirs(ModelsDir);
    var infer := Infer(ServiceOctree, ServiceSteps, ServiceChunks, ServiceSeed);
    if !fx.dirOk then Run([mk], Raised(DirFailed))
    else if !fx.imageOk then Run([mk], Raised(BadImage))
    else if !fx.inferOk then Run([mk, infer], Raised(InferFailed))
    else if filename.None? then Run([mk, infer], Raised(NoFilename))
    else
      var name := OutputName(filename.value);
      var path := OutputPath(name);
      Run([mk, infer, Export(path)], if fx.exportOk then Returned(Response(path, name)) else Raised(ExportFailed))
  }

  /** The directory is created before anything else, so every export has it:
      an export is the last effect, it writes the derived name under
      `./models`, and it follows inference. */
  lemma DirectoryBeforeExport(filename: Option<string>, fx: Effects)
    ensures var t := GenerateModel(filename, fx).trace;
      forall j :: 0 <= j < |t| && t[j].Export? ==>
        && j == |t| - 1 && 0 < j && t[0] == MakeDirs(ModelsDir)
        && t[j - 1].Infer?
        && filename.Some?
        && t[j].path == OutputPath(OutputName(filename.value))
  {
  }

  /** The endpoint answers exactly when every step (creating `./models`
      included) succeeds and the upload has a name; the file it returns is the one it exported. */
  lemma ReturnsIffExported(filename: Option<string>, fx: Effects)
    ensures var r := GenerateModel(filename, fx);
      && (r.outcome.Returned? <==> fx.dirOk && fx.imageOk && fx.inferOk && filename.Some? && fx.exportOk)
      && (r.outcome.Returned? ==> r.trace[|r.trace| - 1] == Export(r.outcome.body.path))
      && (r.outcome.Returned? ==> EndsWith(r.outcome.body.name, StlSuffix) && EndsWith(r.outcome.body.path, r.outcome.body.name))
  {
  }
}
