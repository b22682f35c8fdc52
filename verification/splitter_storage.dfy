/**
 Where the part-splitter puts its artifacts: the two object-store keys, and the
 local archive `zip_dir` builds from the clustering output. The archive is
 modelled as a plan of file operations over an abstract local file system, so
 that "a stale archive is removed first and nothing else is touched" can be
 stated and proved.
 */
module SplitterStorage {
  import opened JobTypes
  import opened PyText

  const KeyPrefix := "splitted_models/"
  const ArchiveName := "partfield_clustering.zip"

  /** Key of the uploaded input mesh. */
  function MeshKey(jobId: string, filename: string): (k: string)
    ensures StartsWith(k, KeyPrefix)
    ensures EndsWith(k, filename)
  {
    KeyPrefix + jobId + "/" + filename
  }

  /** Key of the uploaded clustering archive. */
  function ArchiveKey(jobId: string): (k: string)
    ensures StartsWith(k, KeyPrefix)
    ensures EndsWith(k, ArchiveName)
  {
    "splitted_models/" + jobId + "/partfield_clustering.zip"
  }

  /** The archive key is the mesh key a mesh named like the archive would get,
      so the two keys of one job coincide exactly for that file name. */
  lemma KeysCollideOnlyForArchiveName(jobId: string, filename: string)
    ensures ArchiveKey(jobId) == MeshKey(jobId, ArchiveName)
    ensures MeshKey(jobId, filename) == ArchiveKey(jobId) <==> filename == ArchiveName
  {
    var head := KeyPrefix + jobId + "/";
    assert ArchiveKey(jobId) == head + ArchiveName;
    assert MeshKey(jobId, filename) == head + filename;
    if head + filename == head + ArchiveName {
      assert filename == (head + filename)[|head|..];
    }
  }

  /** Splitting `a/b` at its first slash recovers `a` and `b` when `a` has no slash. */
  lemma {:induction false} SplitAtFirstSlash(a: string, b: string, c: string, d: string)
    requires '/' !in a && '/' !in c
    requires a + "/" + b == c + "/" + d
    ensures a == c && b == d
  {
    var s := a + "/" + b;
    assert s[..|a|] == a && s[|a|] == '/';
    assert s[..|c|] == c && s[|c|] == '/';
    if |a| < |c| {
      assert false;
    } else if |c| < |a| {
      assert false;
    }
    assert a == s[..|a|] == c;
    assert b == s[|a| + 1..] == d;
  }

  /** Jobs whose ids contain no `/` never share a mesh key: the key determines
      both the job id and the file name. */
  lemma MeshKeyInjective(id1: string, f1: string, id2: string, f2: string)
    requires '/' !in id1 && '/' !in id2
    requires MeshKey(id1, f1) == MeshKey(id2, f2)
    ensures id1 == id2 && f1 == f2
  {
    var k := MeshKey(id1, f1);
    assert k[|KeyPrefix|..] == id1 + "/" + f1;
    assert MeshKey(id2, f2)[|KeyPrefix|..] == id2 + "/" + f2;
    SplitAtFirstSlash(id1, f1, id2, f2);
  }

  /** Different jobs never share an archive key, whatever their ids. */
  lemma ArchiveKeyInjective(id1: string, id2: string)
    requires ArchiveKey(id1) == ArchiveKey(id2)
    ensures id1 == id2
  {
    var k := ArchiveKey(id1);
    assert id1 == k[|KeyPrefix|..|k| - |"/partfield_clustering.zip"|];
    assert ArchiveKey(id2) == k;
  }

  /** Without the slash restriction the layout does collide: a job `a/b`
      uploading `c` and a job `a` uploading `b/c` write the same key. */
  lemma MeshKeysCollideAcrossSlashedIds()
    ensures MeshKey("a/b", "c") == MeshKey("a", "b/c")
  {
  }

  // ----- the local archive -----

  /** What a path of the abstract local file system holds. */
  datatype Content = Stale | ZipOf(dir: string) | Other

  /** The file operations `zip_dir` performs. */
  datatype FileOp = RemoveFile(path: string) | MakeZip(baseName: string, rootDir: string)

  datatype ZipPlan = ZipPlan(archivePath: string, ops: seq<FileOp>)

  /** `zip_dir(path)`: remove `<path>.zip` if it exists, then archive the
      directory's contents to `<path>.zip`. */
  function ZipDir(dir: string, archiveExists: bool): (r: ZipPlan)
    ensures r.archivePath == dir + ".zip"
    ensures |r.ops| > 0 && r.ops[|r.ops| - 1] == MakeZip(dir, dir)
    ensures forall i :: 0 <= i < |r.ops| - 1 ==> r.ops[i] == RemoveFile(r.archivePath)
    ensures RemoveFile(r.archivePath) in r.ops <==> archiveExists
  {
    var archive := dir + ".zip";
    ZipPlan(archive, (if archiveExists then [RemoveFile(archive)] else []) + [MakeZip(dir, dir)])
  }

  /** Runs file operations; `None` when a removal targets a missing file
      (`os.remove` raises). `make_archive(base, "zip", root)` writes `<base>.zip`. */
  function ApplyOps(fs: map<string, Content>, ops: seq<FileOp>): Option<map<string, Content>>
    decreases |ops|
  {
    if ops == [] then Some(fs)
    else match ops[0]
      case RemoveFile(p) =>
        if p in fs then ApplyOps(fs - {p}, ops[1..]) else None
      case MakeZip(base, root) =>
        ApplyOps(fs[base + ".zip" := ZipOf(root)], ops[1..])
  }

  /** Running the plan for the file system it was made for never fails, leaves
      a fresh archive of the directory at `<dir>.zip` in place of any stale one,
      and changes no other path. */
  lemma ZipDirReplacesOnlyTheArchive(fs: map<string, Content>, dir: string)
    ensures var plan := ZipDir(dir, dir + ".zip" in fs);
      ApplyOps(fs, plan.ops) == Some(fs[plan.archivePath := ZipOf(dir)])
  {
    var archive := dir + ".zip";
    var plan := ZipDir(dir, archive in fs);
    var done := Some(fs[archive := ZipOf(dir)]);
    if archive in fs {
      assert plan.ops == [RemoveFile(archive), MakeZip(dir, dir)];
      assert (fs - {archive})[archive := ZipOf(dir)] == fs[archive := ZipOf(dir)];
      assert ApplyOps(fs - {archive}, [MakeZip(dir, dir)]) == done;
    } else {
      assert plan.ops == [MakeZip(dir, dir)];
      assert ApplyOps(fs[archive := ZipOf(dir)], []) == done;
    }
  }
}
