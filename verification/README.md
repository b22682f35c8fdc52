# Serverless 3-D model workers, modelled in Dafny

This project models the decision logic of three entry points:

- **The part-splitter job handler.** It fetches a mesh, runs the external PartField toolchain (feature extraction, then clustering), and uploads the mesh and a zip of the clustering output. It then optionally posts a webhook, and always removes its scratch directory.
- **The image-to-mesh generator job handler.** It decodes an image, uploads it, runs shape inference and exports an STL. It uploads the STL, presigns both objects and posts a webhook.
- **The `/generate/` endpoint of the standalone HTTP service.** It turns an upload's file name into the name of the exported STL.

Every external effect is an answer read from an `Effects` oracle:

- filesystem probes and writes;
- downloads;
- subprocess exit statuses;
- base64 decoding, image decoding and inference;
- uploads;
- the presigned URLs, which are opaque strings;
- the webhook.

Each handler is a pure function. It returns the trace of effects it attempted and how the invocation ended: a returned body, a returned `{'status': 'error', ...}` dictionary, or a raised exception. The command lines passed to the toolchain are built exactly as the handler builds them. Each command line has a decoder that reads it back, and the round trip is proved.

Modules:

- `JobTypes`: `Option`, bytes, the result of Python's `int(...)`, and the three outcomes.
- `PyText`: truthiness, POSIX `os.path.join`, and `str(int)` with its inverse.
- `PartField`: the extraction and clustering command lines and their decoders.
- `SplitterStorage`: the two storage keys and the archive step `zip_dir`, over an abstract file system.
- `Splitter` and `SplitterProperties`: the splitter handler and its trace lemmas.
- `Generator` and `GeneratorProperties`: the generator handler and its lemmas.
- `ModelService`: the output-name derivation and the endpoint's effects in `main.py`.

The model follows the code as written, including where the code departs from what its own comments promise or from what a caller would expect:

- **Extraction output.** The extraction step's docstring (`src/3d_model_parts_splitter/handler.py:73`) says outputs go under `PF_ROOT/exp_results/partfield_features/<job_id>`, and the command's `result_name` is `partfield_features/<id>` to match. The handler never checks that this directory exists: clustering runs as soon as the extraction command exits with status zero.
- **Several mesh sources.** When more than one source is set, precedence picks one and nothing fails.
- **Job id with a slash.** The job id goes into the `mkdtemp` prefix unchecked, so an id holding a `/` makes the handler raise before it creates any scratch directory.
- **No mesh source.** The missing-mesh error is returned after the scratch directory was allocated, and that directory is then removed.
- **Invalid mode.** An unknown clustering mode is rejected after extraction has run and after the dump directory was created.
- **Archive key.** The archive key is `splitted_models/<id>/partfield_clustering.zip`. It coincides with the mesh key when the file name is `partfield_clustering.zip`.
- **Mesh file name.** The file name is joined to the scratch data directory without normalisation. A name whose `..` components climb above it lands outside that directory, and an absolute name replaces it.
- **Octree limit.** The generator clamps the octree resolution at 256, although the comment next to the clamp (`src/3d_model_generator/handler.py:68`) says the maximum is 512.

## Model

| member | source | states |
|---|---|---|
| `PartField.PartfieldInferenceCall` | src/3d_model_parts_splitter/handler.py:71-87 | The extraction command asks the tool for the configured checkpoint, the result name `partfield_features/<id>`, the data directory and the preprocessing flag, and the returned path is the job's feature directory |
| `PartField.ExtractArgvRoundTrip` | src/3d_model_parts_splitter/handler.py:75-85 | Every extraction argv decodes back to the checkpoint, result name, data path and preprocessing flag it was built from |
| `PartField.ExtractArgvPreprocessSuffix` | src/3d_model_parts_splitter/handler.py:84-85 | The extraction argv ends in `preprocess_mesh True` exactly when preprocessing is requested |
| `PartField.ExtractArgvInjective` | src/3d_model_parts_splitter/handler.py:75-85 | Distinct extraction requests produce distinct command lines |
| `PartField.FeatureRootIsResultDir` | src/3d_model_parts_splitter/handler.py:73-87 | For a toolchain root that is non-empty and does not end in `/`, and a relative job id, the returned feature path is `PF_ROOT/exp_results/partfield_features/<id>`, which is where the tool writes `exp_results/<result_name>`; an absolute id replaces the whole path |
| `PartField.ParseMode` | src/3d_model_parts_splitter/handler.py:104-111 | Exactly the three names `agglo`, `agglo_knn` and `kmeans` are accepted, and each one names its mode |
| `PartField.PartfieldClustering` | src/3d_model_parts_splitter/handler.py:94-111 | The dump directory is `PF_ROOT/exp_results/clustering/<id>`, and no command is produced exactly when the mode is unknown |
| `PartField.PartfieldClusteringCall` | src/3d_model_parts_splitter/handler.py:97-113 | For a known mode, the clustering command asks the tool to cluster the given features into the dump directory, reading the data directory, with the given cluster bound and the mode's flags |
| `PartField.ClusterArgvRoundTrip` | src/3d_model_parts_splitter/handler.py:97-109 | Every clustering argv decodes back to its arguments: `str(max_clusters)` reads back as the bound, and the trailing flags identify the mode |
| `PartField.ClusterArgvShape` | src/3d_model_parts_splitter/handler.py:97-109 | Every clustering argv starts with the ten-word base command. `kmeans` adds nothing, `agglo` and `agglo_knn` add `--use_agglo True`, and only `agglo_knn` ends with `--with_knn True` |
| `PartField.OutputDir` | src/3d_model_parts_splitter/handler.py:87-94 | A per-job toolchain output directory ends with the job id and lies under the toolchain root when the id is relative |
| `PartField.OutputDirsDisjoint` | src/3d_model_parts_splitter/handler.py:87-94 | For any toolchain root and relative job ids, the feature directory of one job is never the clustering directory of any job: the two differ right after `exp_results/` |
| `PyText.PathJoin` | src/3d_model_parts_splitter/handler.py:143-145 | `os.path.join` on POSIX: an absolute second part replaces the first. Otherwise the result starts with the first part and ends with the second. A `/` is inserted between them only when the first part is non-empty and does not already end in `/`; otherwise the two are concatenated |
| `PyText.ParseIntToString` | src/3d_model_parts_splitter/handler.py:102 | `str(n)` of any integer reads back as `n`, so the cluster bound passed to the tool is exact |
| `PyText.NatToString` | src/3d_model_parts_splitter/handler.py:102 | `str(n)` of a natural number is a non-empty string of digits with no leading zero, and it is `0` only for zero |
| `SplitterStorage.MeshKey` | src/3d_model_parts_splitter/handler.py:173 | The mesh key lies under `splitted_models/` and ends with the file name |
| `SplitterStorage.ArchiveKey` | src/3d_model_parts_splitter/handler.py:179 | The archive key lies under `splitted_models/` and ends with `partfield_clustering.zip` |
| `SplitterStorage.KeysCollideOnlyForArchiveName` | src/3d_model_parts_splitter/handler.py:173-179 | A job's mesh and archive keys coincide exactly when the file name is `partfield_clustering.zip` |
| `SplitterStorage.MeshKeyInjective` | src/3d_model_parts_splitter/handler.py:173 | For job ids without `/`, the mesh key determines both the job id and the file name |
| `SplitterStorage.ArchiveKeyInjective` | src/3d_model_parts_splitter/handler.py:179 | Different job ids never share an archive key |
| `SplitterStorage.MeshKeysCollideAcrossSlashedIds` | src/3d_model_parts_splitter/handler.py:173 | The key expression lets a job id containing `/` produce the same mesh key as another job. Such an id makes `mkdtemp` fail before any upload (`SplitterProperties.SlashedJobIdFailsAtScratch`), so the collision is a property of the key expression alone |
| `SplitterStorage.ZipDir` | src/3d_model_parts_splitter/handler.py:53-58 | The archive is built at `<dir>.zip`. A stale archive is removed first, exactly when one exists, and the last step archives the directory |
| `SplitterStorage.ZipDirReplacesOnlyTheArchive` | src/3d_model_parts_splitter/handler.py:53-58 | Running the archive plan never fails. It leaves a fresh archive of the directory at `<dir>.zip` and changes no other path |
| `Splitter.ConfigFromEnv` | src/3d_model_parts_splitter/handler.py:20-25 | A set environment variable wins even when it is empty. Only an unset bucket, root or checkpoint falls back to its default. The webhook URL and secret are present exactly when set, and then hold the variable's value |
| `Splitter.JobId` | src/3d_model_parts_splitter/handler.py:123 | A truthy job id is used as is; otherwise the id is the first eight characters of the generated uuid |
| `Splitter.ClusterBound` | src/3d_model_parts_splitter/handler.py:135 | The cluster bound defaults to 20, is the given integer otherwise, and raises exactly when `int` rejects the value |
| `Splitter.ScratchRoot` | src/3d_model_parts_splitter/handler.py:142 | The scratch directory starts with `/tmp/job_<id>_` and ends with the name `mkdtemp` chose |
| `Splitter.SelectSourceIsFirstTruthy` | src/3d_model_parts_splitter/handler.py:148-158 | The chosen mesh source is the first truthy one of presigned URL, mesh URL and base64 payload, whatever the others hold. There is no source exactly when all three are falsy |
| `Splitter.DownloadTo` | src/3d_model_parts_splitter/handler.py:42-51 | A truthy URL is fetched to the path. Otherwise non-empty bytes are written to the path verbatim, and the step fails exactly when the write fails. Otherwise it raises, so empty decoded content is an error and never an empty file |
| `Splitter.Acquire` | src/3d_model_parts_splitter/handler.py:148-156 | The selected source is materialised at the mesh path. A payload that fails to decode raises before anything is written, and one that decodes to no bytes is refused. Decoded bytes are written verbatim, and the step fails exactly when that write fails |
| `Splitter.Notify` | src/3d_model_parts_splitter/handler.py:194-202 | The webhook is posted, with the body as payload, exactly when `WEBHOOK_URL` is truthy. It carries the token exactly when the secret is truthy, and only a failed post raises |
| `Splitter.Handler` | src/3d_model_parts_splitter/handler.py:183-204 | A returned body has status `success` and holds the job id, the user id, the mode and the cluster bound, with the mesh URL and archive URL that presigning produced |
| `SplitterProperties.CleanupOnEveryExit` | src/3d_model_parts_splitter/handler.py:121-213 | Before allocation nothing is cleaned, and the only exits there are missing toolchain paths, a bad cluster count, the missing-user error, and `mkdtemp` failing on a job id that holds a `/`. Once the scratch directory exists, every exit ends with exactly one cleanup as the last effect |
| `SplitterProperties.StagesInOrder` | src/3d_model_parts_splitter/handler.py:142-213 | Effects happen in strict pipeline order, each at most once: allocation, mesh, extraction, dump directory, clustering, mesh upload, archive, archive upload, webhook, cleanup |
| `SplitterProperties.FaultStopsLaterStages` | src/3d_model_parts_splitter/handler.py:164-208 | A raised fault is re-raised and stops the pipeline at the failing stage: no later stage is attempted, and only cleanup follows |
| `SplitterProperties.SucceedsIffAllEffectsSucceed` | src/3d_model_parts_splitter/handler.py:164-204 | The success body is returned exactly when every reached effect succeeds; then the mesh was uploaded before the archive |
| `SplitterProperties.UploadKeysAreDeterministic` | src/3d_model_parts_splitter/handler.py:173-180 | Every upload goes to `splitted_models/<id>/<filename>` (default `input.stl`) or to `splitted_models/<id>/partfield_clustering.zip` |
| `SplitterProperties.StagesArgs` | src/3d_model_parts_splitter/handler.py:164-168 | Extraction runs in the PartField root with the configured checkpoint, the job's result name, the data directory and preprocessing on. Clustering runs there too, reading the job's feature directory (the path extraction returns) and writing the job's dump directory with the requested bound and mode |
| `SplitterProperties.DeliverArgs` | src/3d_model_parts_splitter/handler.py:173-197 | The mesh is uploaded from the path it was written to and the archive from `<dump dir>.zip`, both to the configured bucket with a one-hour expiry. The archive operations touch only the dump directory and its archive. The webhook goes to the configured URL, carries the secret exactly when one is set, and posts the success body |
| `SplitterProperties.StageArguments` | src/3d_model_parts_splitter/handler.py:142-204 | For an admitted job, every effect of the handler carries these arguments, with the scratch directory allocated and cleaned, and the mesh written to `<scratch>/data/<filename>`. On success, the webhook payload is the body the handler returns |
| `SplitterProperties.ClusteringNeedsExtraction` | src/3d_model_parts_splitter/handler.py:164-168 | Clustering, when it happens, is the fifth effect. It happens only after a successful extraction and with a valid mode |
| `SplitterProperties.MissingUserReturnsError` | src/3d_model_parts_splitter/handler.py:137-139 | Once the toolchain paths exist and `max_num_clusters` parses (the checks the handler runs first), a missing or empty user id returns the error dictionary with no effect at all |
| `SplitterProperties.SlashedJobIdFailsAtScratch` | src/3d_model_parts_splitter/handler.py:123-142 | A job id holding a `/` never produces an effect. Once the path, cluster-count and user checks pass, `mkdtemp` raises for it, and the exception escapes with nothing to clean up |
| `SplitterProperties.ScratchDirectlyInTmp` | src/3d_model_parts_splitter/handler.py:142 | The scratch directory is `/tmp/job_<id>_<random>`. The id passes the creatability test exactly when the name after `/tmp/` is one path component, so the directory to create has `/tmp` as its parent |
| `SplitterProperties.MissingMeshReturnsErrorAfterAllocation` | src/3d_model_parts_splitter/handler.py:142-158 | For a job that passes the path, cluster-count and user checks and whose scratch directory can be created: with no mesh source, the scratch directory is allocated and removed, nothing is fetched, and the error dictionary is returned |
| `SplitterProperties.ErrorDictOnlyForMissingInputs` | src/3d_model_parts_splitter/handler.py:121-158 | The error dictionary is returned exactly when the paths exist, the cluster count parses, and either the user id is missing, or the scratch directory was created and every mesh source is missing. Its message names the user id when that is missing and the mesh otherwise. Every other failure raises |
| `SplitterProperties.InvalidModeRejectedAfterExtraction` | src/3d_model_parts_splitter/handler.py:164-168 | An unknown mode raises only after extraction ran and the dump directory was created; clustering never runs |
| `SplitterProperties.MeshDestination` | src/3d_model_parts_splitter/handler.py:143-145 | The mesh is written only as the second effect. A relative file name is joined to the scratch data directory, so the destination begins with that directory as a string; the join does not resolve `..`. An absolute name is written to that absolute path |
| `SplitterProperties.MeshNameMayClimbOut` | src/3d_model_parts_splitter/handler.py:143-145 | The data-directory containment is only a string prefix: the name `../../etc/x.stl` is written to `<scratch>/data/../../etc/x.stl`, which begins with the scratch path yet names a file two levels above it |
| `SplitterProperties.FailedMeshWriteRaises` | src/3d_model_parts_splitter/handler.py:42-51 | When writing decoded bytes to the mesh path fails, the handler raises after that one write; it fetches nothing, runs no tool, uploads nothing, and still removes the scratch directory |
| `Generator.ConfigFromEnv` | src/3d_model_generator/handler.py:18-20 | A set variable wins even when empty; an unset bucket falls back to `chuck-assets` |
| `Generator.ObjectKey` | src/3d_model_generator/handler.py:64-90 | A key is the folder, a `/`, the id's text and the extension, and the id's text can be read back from the key |
| `Generator.Octree` | src/3d_model_generator/handler.py:68-70 | The octree resolution defaults to 256, never exceeds 256, is the request's value when that is lower, and raises exactly when `int` rejects it |
| `Generator.Handler` | src/3d_model_generator/handler.py:98-121 | A returned body has status `success` and carries the job id, both presigned URLs and the truthy user id |
| `GeneratorProperties.UserCheckedFirst` | src/3d_model_generator/handler.py:49-51 | A missing user id returns the user-id error with no effect, even when the image is also missing |
| `GeneratorProperties.MissingImageHasNoEffects` | src/3d_model_generator/handler.py:53-55 | When the user id is present, a missing image returns its error before any upload, inference or webhook |
| `GeneratorProperties.ErrorDictOnlyForMissingFields` | src/3d_model_generator/handler.py:49-59 | The error dictionary is returned exactly for a missing user id or image, and then nothing happened; every other failure raises |
| `GeneratorProperties.EffectsInOrder` | src/3d_model_generator/handler.py:58-117 | Effects happen in order, each at most once: image upload, inference, STL export, STL upload, image URL, STL URL, webhook |
| `GeneratorProperties.FaultStopsLaterStages` | src/3d_model_generator/handler.py:58-125 | A raised fault stops the handler at the failing stage. An unparsable octree is noticed only after the image was uploaded |
| `GeneratorProperties.SucceedsIffAllEffectsSucceed` | src/3d_model_generator/handler.py:58-121 | The success body is returned exactly when every effect succeeds and a webhook URL is configured |
| `GeneratorProperties.SuccessTrace` | src/3d_model_generator/handler.py:95-121 | On success both URLs were presigned for 3600 seconds. The webhook posted the returned body to the configured URL, with the secret as token and a 10-second timeout |
| `GeneratorProperties.WebhookIsUnconditional` | src/3d_model_generator/handler.py:106-117 | Once both URLs are presigned, an unset or empty webhook URL raises, and a set one is always posted to |
| `GeneratorProperties.InferenceOctreeBounded` | src/3d_model_generator/handler.py:68-82 | Inference gets the clamped octree resolution, never above 256, with 10 steps, 60000 chunks and seed 12355 |
| `GeneratorProperties.UploadKeys` | src/3d_model_generator/handler.py:64-96 | The image goes to `images/<id>.png` and the STL to `models/<id>.stl`, and the URLs are presigned for those keys |
| `GeneratorProperties.KeysInjective` | src/3d_model_generator/handler.py:64-90 | Jobs with ids never share a key, and an image key never equals a model key |
| `GeneratorProperties.MissingIdKeysCollide` | src/3d_model_generator/handler.py:41-90 | Every job without an id writes `images/None.png` and `models/None.stl`, the same keys as the job whose id is `None` |
| `ModelService.LastDot` | main.py:47 | Finds the last `.` of a name: a dot with no dot after it, and nothing exactly when the name has no dot |
| `ModelService.Stem` | main.py:47 | `rsplit(".", 1)[0]` is the whole name when it has no dot. Otherwise it is the part that, followed by `.` and a dot-free extension, gives the name back |
| `ModelService.OutputName` | main.py:47 | The output name always ends in `.stl` |
| `ModelService.OutputPath` | main.py:48 | The output path is `./models/` followed by the output name |
| `ModelService.ReplacesLastExtension` | main.py:47 | Only the last extension is replaced: `p.ext` becomes `p.stl` whatever dots `p` holds |
| `ModelService.NoDotAppendsSuffix` | main.py:47 | A name without a dot keeps all of itself and gains `.stl` |
| `ModelService.StlNameIsFixed` | main.py:47 | A name already ending in `.stl` maps to itself |
| `ModelService.OutputNameIdempotent` | main.py:47 | Deriving the output name twice gives the same name as once |
| `ModelService.OutputStaysInModelsDir` | main.py:47-48 | A file name without `/` gives an output name without `/`, so the export lands directly in `./models` |
| `ModelService.GenerateModel` | main.py:27-52 | `./models` is created before anything else, and when that fails the endpoint raises with no other effect. The response is the exported path and the derived name |
| `ModelService.DirectoryBeforeExport` | main.py:28-49 | An export happens only after the directory was created and inference ran. It is the last effect, and it writes `./models/<output name>` |
| `ModelService.ReturnsIffExported` | main.py:27-52 | The endpoint responds exactly when creating `./models`, image decoding, inference and export succeed and the upload has a name. It returns the file it exported |

## Left out

- **Effects.** boto3 uploads, `requests.post`, `urlretrieve`, subprocesses, PyTorch inference, PIL, trimesh and base64 internals are oracle answers, not models.
- **Presigning never fails.** In the splitter, `s3_upload` is one upload event whose success covers presigning. In the generator, presigning is an event that always yields the oracle's URL.
- **Filesystem calls.** `mkdtemp` is the `AllocScratch` event. It fails exactly for a job id holding a `/`; this assumes no directory `/tmp/job_<part before the slash>` exists, and no other `mkdtemp` failure is modelled. The dump directory's `os.makedirs` (`src/3d_model_parts_splitter/handler.py:95`) is the `MakeDumpDir` event, and the removal of a stale archive (line 56) is a `Zip(RemoveFile(...))` event; both are assumed to succeed. Two calls have no event at all and are also assumed to succeed: the data directory's `os.makedirs` (line 144) and the `os.makedirs` inside `download_to` (line 43). `shutil.rmtree` is the `Cleanup` event; it ignores its errors anyway. The `isdir(job_dir)` test before cleanup is taken to hold. Of the file writes, only the mesh write (`open`/`write`, lines 47-48) and `make_archive` can fail in the model. In the service, `os.makedirs("./models")` (`main.py:28`) is the `MakeDirs` event, and it may fail.
- **Path resolution.** Paths are strings joined by `os.path.join`; `..` is never resolved, so containment in a directory is stated as a string prefix. `SplitterProperties.MeshNameMayClimbOut` shows a name for which that prefix does not mean the file lies inside the directory.
- **Generator STL temp file.** The generator writes the STL to a temporary file it never deletes; the file system is not modelled there.
- **Input types.** Values of the wrong JSON type are not modelled (a `null` file name, a non-string mode). The `int(...)` of a request field is abstracted to "an integer or a `ValueError`".
- **Process startup and other entry points.** Logging, timestamps, runpod and FastAPI startup, model loading, and the top-level `handler.py` wrapper are left out. The `webhook_url` printed at start-up is not modelled either.
- **Service upload name.** In the service, `file.filename` may be absent. This is modelled as a fault raised when the name is first used, after inference. Reading the upload's bytes is folded into the image-decoding answer.
- `PartField.PartfieldInference`: the function has no contract of its own; what it builds is stated by `PartField.PartfieldInferenceCall`.
- **Service octree.** The service always runs inference at octree resolution 180. That constant only appears in the trace; no property depends on it.

