/** The backend's file service (backend/app/services/file_manager.py): the
    per-project directory layout, saving uploads, format validation, sizes,
    cleanup and archiving. The part of the disk it touches is a set of
    directories and a map from file path to size; paths are held in
    `pathlib`'s normal form (no empty or `.` components, no trailing
    slash). */
module FileManager {
  import opened Wrappers
  import opened Text
  import opened Paths
  import Json

  /** The settings defaults (backend/app/core/config.py). */
  const UploadDir := "/app/uploads"
  const OutputDir := "/app/output"
  const TempDir := "/app/temp"
  const MaxFileSize := 500 * 1024 * 1024

  /** The directories and files on disk. */
  datatype Disk = Disk(dirs: set<string>, files: map<string, nat>)

  /** `Path.exists()`. */
  predicate Exists(d: Disk, p: string)
  {
    p in d.dirs || p in d.files
  }

  /** `p` is `root` or lies below it. */
  predicate Under(p: string, root: string)
  {
    p == root || StartsWith(p, root + "/")
  }

  /** The directories above `p`. */
  function Ancestors(p: string): set<string>
  {
    set i | 0 < i < |p| && p[i] == '/' :: p[..i]
  }

  /** `mkdir(parents=True, exist_ok=True)` fails when `p` or a directory it
      needs is a file. */
  predicate Blocked(d: Disk, p: string)
  {
    p in d.files || exists a | a in Ancestors(p) :: a in d.files
  }

  /** `shutil.rmtree(root)` on a directory: everything under it goes. */
  function RemovedTree(d: Disk, root: string): (r: Disk)
    ensures forall p | p in r.dirs || p in r.files :: !Under(p, root)
  {
    Disk(set p | p in d.dirs && !Under(p, root), map p | p in d.files && !Under(p, root) :: d.files[p])
  }

  /** `output_dir / f"project_{project_id}"` and the same under the other
      roots. */
  function ProjectDir(root: string, projectId: int): string
  {
    Child(root, "project_" + Json.IntText(projectId))
  }

  /** The ten directories `create_project_directories` names, in
      dictionary order. */
  function Layout(base: string): seq<(string, string)>
  {
    var workspace := Child(base, "colmap_workspace");
    [("base", base), ("frames", Child(base, "frames")), ("processed_frames", Child(base, "processed_frames")),
     ("perspective_frames", Child(base, "perspective_frames")), ("colmap_workspace", workspace),
     ("sparse", Child(workspace, "sparse")), ("dense", Child(workspace, "dense")), ("meshes", Child(base, "meshes")),
     ("textures", Child(base, "textures")), ("exports", Child(base, "exports"))]
  }

  /** The paths of the layout below the project directory. */
  const Relative := ["frames", "processed_frames", "perspective_frames", "colmap_workspace",
                     "colmap_workspace/sparse", "colmap_workspace/dense", "meshes", "textures", "exports"]

  /** The layout is the project directory, then nine directories below
      it, with `sparse` and `dense` inside `colmap_workspace`; no name is
      used twice. */
  lemma LayoutPaths(base: string)
    ensures var l := Layout(base);
      |l| == 10 && l[0] == ("base", base) &&
      (forall i | 1 <= i < 10 :: l[i].1 == Child(base, Relative[i - 1])) &&
      (forall i, j | 0 <= i < j < 10 :: l[i].0 != l[j].0)
  {
    var w := Child(base, "colmap_workspace");
    assert Child(w, "sparse") == Child(base, "colmap_workspace/sparse");
    assert Child(w, "dense") == Child(base, "colmap_workspace/dense");
  }

  /** The ten paths are distinct and all lie under the project directory. */
  lemma LayoutDistinct(base: string)
    ensures var l := Layout(base);
      (forall i, j | 0 <= i < j < 10 :: l[i].1 != l[j].1) && (forall i | 0 <= i < 10 :: Under(l[i].1, base))
  {
    var l := Layout(base);
    LayoutPaths(base);
    forall i, j | 0 <= i < j < 10
      ensures l[i].1 != l[j].1
    {
      if i == 0 {
        assert |l[j].1| > |base|;
      } else if l[i].1 == l[j].1 {
        ChildInjective(base, Relative[i - 1], Relative[j - 1]);
      }
    }
    forall i | 1 <= i < 10
      ensures Under(l[i].1, base)
    {
      assert (base + "/" + Relative[i - 1])[..|base| + 1] == base + "/";
    }
  }

  /** Different names give different children. */
  lemma ChildInjective(dir: string, a: string, b: string)
    requires Child(dir, a) == Child(dir, b)
    ensures a == b
  {
    assert a == Child(dir, a)[|dir| + 1..];
    assert b == Child(dir, b)[|dir| + 1..];
  }

  /** `validate_file_format`: the `pathlib` extension, lower-cased and
      without its dot, is one of the allowed formats. */
  predicate ValidFormat(filename: string, allowed: seq<string>)
  {
    PathExtension(filename) in allowed
  }

  /** For an ordinary `stem.ext` name the check is on the extension in
      lower case, so it ignores case; names without a dot and dotfiles such
      as `.mp4` are refused unless the empty format is allowed. */
  lemma ValidFormatRule(stem: string, ext: string, allowed: seq<string>)
    requires stem != "" && ext != ""
    requires forall i | 0 <= i < |stem| :: stem[i] != '/'
    requires forall i | 0 <= i < |ext| :: ext[i] != '.' && ext[i] != '/'
    ensures ValidFormat(stem + "." + ext, allowed) <==> Lower(ext) in allowed
    ensures ValidFormat(ext, allowed) <==> "" in allowed
    ensures ValidFormat("." + ext, allowed) <==> "" in allowed
  {
    PathExtensionOf(stem, ext);
    NameOfPlain(ext);
    NoSuffix(ext);
    var dotted := "." + ext;
    assert forall i | 0 < i < |dotted| :: dotted[i] == ext[i - 1];
    assert dotted != "." && forall i | 0 <= i < |dotted| :: dotted[i] != '/';
    NameOfPlain(dotted);
    NoSuffix(dotted);
  }

  /** The service object; its disk is the part of the filesystem it
      touches. */
  class FileService {
    var disk: Disk

    constructor (disk: Disk)
      ensures this.disk == disk
    {
      this.disk := disk;
    }

    /** `mkdir(parents=True, exist_ok=True)`: `p` and every directory above
        it exist afterwards, unless one of them is a file, when nothing
        changes. */
    method MakeDirs(p: string) returns (ok: bool)
      modifies this
      ensures ok <==> !Blocked(old(disk), p)
      ensures ok ==> disk == old(disk).(dirs := old(disk).dirs + Ancestors(p) + {p})
      ensures !ok ==> disk == old(disk)
    {
      if Blocked(disk, p) {
        return false;
      }
      disk := disk.(dirs := disk.dirs + Ancestors(p) + {p});
      ok := true;
    }

    /** `create_project_directories`: the ten directories of the project
        under the output root are created in order and returned; the first
        one a file blocks raises, leaving the earlier ones created. Files
        are never touched. */
    method CreateProjectDirectories(projectId: int) returns (r: Result<seq<(string, string)>>)
      modifies this
      ensures disk.files == old(disk.files) && old(disk.dirs) <= disk.dirs
      ensures var l := Layout(ProjectDir(OutputDir, projectId));
        (r.Ok? <==> forall i | 0 <= i < |l| :: !Blocked(old(disk), l[i].1)) &&
        (r.Ok? ==> r.value == l && forall i | 0 <= i < |l| :: l[i].1 in disk.dirs)
    {
      var l := Layout(ProjectDir(OutputDir, projectId));
      for i := 0 to |l|
        invariant disk.files == old(disk.files) && old(disk.dirs) <= disk.dirs
        invariant forall k | 0 <= k < i :: !Blocked(old(disk), l[k].1) && l[k].1 in disk.dirs
      {
        var ok := MakeDirs(l[i].1);
        if !ok {
          assert Blocked(old(disk), l[i].1);
          return Err(Error("OSError", "cannot create " + l[i].1));
        }
      }
      r := Ok(l);
    }

    /** `save_uploaded_file`: the upload goes to
        `upload_dir/project_<id>/<file_type>/<uuid><suffix>` where the suffix
        is the original name's `pathlib` suffix, case kept; `uuid` is the
        text of the `uuid4()` drawn. A blocked directory, or a directory at
        the target path, makes it raise. */
    method SaveUploadedFile(filename: string, size: nat, projectId: int, fileType: string, uuid: string)
      returns (r: Result<string>)
      modifies this
      ensures var dir := UploadDirFor(projectId, fileType);
        (r.Ok? <==> CanSave(old(disk), projectId, fileType, filename, uuid)) &&
        (r.Ok? ==> r.value == UploadTarget(projectId, fileType, filename, uuid) &&
                   disk.files == old(disk.files)[r.value := size] &&
                   disk.dirs == old(disk.dirs) + Ancestors(dir) + {dir}) &&
        (r.Err? ==> disk.files == old(disk.files))
    {
      var dir := Child(ProjectDir(UploadDir, projectId), fileType);
      var ok := MakeDirs(dir);
      if !ok {
        return Err(Error("OSError", "cannot create " + dir));
      }
      var target := Child(dir, uuid + Suffix(Name(filename)));
      if target in disk.dirs {
        return Err(Error("IsADirectoryError", target));
      }
      disk := disk.(files := disk.files[target := size]);
      r := Ok(target);
    }

    /** `get_file_size`: a file's size, what `stat` reports for a directory
        (`dirSize`), and 0 when the path is missing. */
    function FileSize(path: string, dirSize: nat): (n: nat)
      reads this
      ensures path in disk.files ==> n == disk.files[path]
      ensures !Exists(disk, path) ==> n == 0
    {
      if path in disk.files then disk.files[path] else if path in disk.dirs then dirSize else 0
    }

    /** `cleanup_project_files`: the project's upload, output and temp
        directories are removed in that order, each only if it exists. A
        file where one of them should be makes `rmtree` raise: the answer is
        False and the directories already removed stay removed. */
    method CleanupProjectFiles(projectId: int) returns (ok: bool)
      modifies this
      ensures (disk, ok) == Cleaned(old(disk), Roots(projectId))
    {
      var roots := Roots(projectId);
      for i := 0 to 3
        invariant Cleaned(old(disk), roots) == Cleaned(disk, roots[i..])
      {
        assert roots[i..][1..] == roots[i + 1..];
        var p := roots[i];
        if p in disk.files {
          return false;
        }
        if p in disk.dirs {
          disk := RemovedTree(disk, p);
        }
      }
      ok := true;
    }

    /** `archive_project` as written: the archive `shutil.make_archive`
        writes is `archive_path.with_suffix('') + ".zip"`, but the path
        returned is `archive_path` itself. `zipped` is the size of the zip
        file `make_archive` produces, None when it raises. */
    function ArchivedAsWritten(projectId: int, archivePath: Option<string>, zipped: Option<nat>)
      : (r: (Disk, Result<string>))
      reads this
      ensures r.1.Ok? ==> r.1.value == ArchiveTarget(projectId, archivePath)
    {
      var target := ArchiveTarget(projectId, archivePath);
      match ArchiveWrite(disk, projectId, target, zipped)
      case Err(e) => (disk, Err(e))
      case Ok(written) => (disk.(files := disk.files[written := zipped.value]), Ok(target))
    }

    /** `archive_project`, returning the path of the archive it created. */
    method ArchiveProject(projectId: int, archivePath: Option<string>, zipped: Option<nat>) returns (r: Result<string>)
      modifies this
      ensures ArchiveWrite(old(disk), projectId, ArchiveTarget(projectId, archivePath), zipped).Err? ==>
        disk == old(disk) && r == ArchiveWrite(old(disk), projectId, ArchiveTarget(projectId, archivePath), zipped)
      ensures r.Ok? ==> zipped.Some? && r.value == Zipped(ArchiveTarget(projectId, archivePath)) &&
                        disk == old(disk).(files := old(disk).files[r.value := zipped.value])
    {
      var target := if archivePath.Some? then archivePath.value else Child(OutputDir, "project_" + Json.IntText(projectId) + "_archive.zip");
      var project := ProjectDir(OutputDir, projectId);
      if !Exists(disk, project) {
        return Err(Error("FileNotFoundError", "Project directory not found: " + project));
      }
      if Name(target) == "" {
        return Err(Error("ValueError", target + " has an empty name"));
      }
      if zipped.None? {
        return Err(Error("OSError", "make_archive failed"));
      }
      var written := Zipped(target);
      disk := disk.(files := disk.files[written := zipped.value]);
      r := Ok(written);
    }
  }

  /** `upload_dir / f"project_{project_id}" / file_type`. */
  function UploadDirFor(projectId: int, fileType: string): string
  {
    Child(ProjectDir(UploadDir, projectId), fileType)
  }

  /** Where `save_uploaded_file` writes: the uuid's text followed by the
      original name's suffix, case kept. */
  function UploadTarget(projectId: int, fileType: string, filename: string, uuid: string): string
  {
    Child(UploadDirFor(projectId, fileType), uuid + Suffix(Name(filename)))
  }

  /** The directory can be made and the target is not a directory. */
  predicate CanSave(d: Disk, projectId: int, fileType: string, filename: string, uuid: string)
  {
    var dir := UploadDirFor(projectId, fileType);
    !Blocked(d, dir) && UploadTarget(projectId, fileType, filename, uuid) !in d.dirs + Ancestors(dir) + {dir}
  }

  /** Two uploads drawing different uuids (of the same 36-character form)
      never share a target, whatever their names. */
  lemma UploadTargetsDiffer(projectId: int, fileType: string, a: string, b: string, ua: string, ub: string)
    requires |ua| == |ub| && ua != ub
    ensures UploadTarget(projectId, fileType, a, ua) != UploadTarget(projectId, fileType, b, ub)
  {
    var dir := UploadDirFor(projectId, fileType);
    var ta, tb := ua + Suffix(Name(a)), ub + Suffix(Name(b));
    assert ta[..|ua|] == ua && tb[..|ub|] == ub;
    if Child(dir, ta) == Child(dir, tb) {
      ChildInjective(dir, ta, tb);
    }
  }

  /** The project's directories under the three roots, in cleanup order. */
  function Roots(projectId: int): seq<string>
  {
    [ProjectDir(UploadDir, projectId), ProjectDir(OutputDir, projectId), ProjectDir(TempDir, projectId)]
  }

  /** Removing the trees in order, stopping at the first that is a file. */
  function Cleaned(d: Disk, roots: seq<string>): (res: (Disk, bool))
    ensures res.0.files.Keys <= d.files.Keys && res.0.dirs <= d.dirs
    ensures res.1 ==> forall k | 0 <= k < |roots| :: !Exists(res.0, roots[k])
    ensures !res.1 ==> exists k | 0 <= k < |roots| :: roots[k] in d.files
    decreases |roots|
  {
    if roots == [] then (d, true)
    else if roots[0] in d.files then (d, false)
    else Cleaned(Removed(d, roots[0]), roots[1..])
  }

  /** Every directory above an existing path exists. */
  ghost predicate Consistent(d: Disk)
  {
    forall p, a | (p in d.dirs || p in d.files) && a in Ancestors(p) :: a in d.dirs
  }

  /** A path is under each of its ancestors. */
  lemma AncestorAbove(p: string, a: string)
    requires a in Ancestors(p)
    ensures Under(p, a) && a != p
  {
    var i :| 0 < i < |p| && p[i] == '/' && p[..i] == a;
    assert p[..i + 1] == a + "/";
  }

  /** A path strictly under a non-empty root has the root as an ancestor. */
  lemma RootAbove(p: string, root: string)
    requires root != "" && Under(p, root) && p != root
    ensures root in Ancestors(p)
  {
    assert p[..|root| + 1] == root + "/";
    assert p[|root|] == '/' && p[..|root|] == root;
  }

  /** Being under is transitive. */
  lemma UnderTransitive(p: string, a: string, root: string)
    requires Under(p, a) && Under(a, root)
    ensures Under(p, root)
  {
    if p != a && a != root {
      assert p[..|a| + 1] == a + "/";
      assert p[..|root| + 1] == a[..|root| + 1] == root + "/";
    }
  }

  /** Removing a tree keeps a consistent disk consistent. */
  lemma RemovedConsistent(d: Disk, root: string)
    requires Consistent(d)
    ensures Consistent(RemovedTree(d, root))
  {
    var r := RemovedTree(d, root);
    forall p, a | (p in r.dirs || p in r.files) && a in Ancestors(p)
      ensures a in r.dirs
    {
      AncestorAbove(p, a);
      if Under(a, root) {
        UnderTransitive(p, a, root);
      }
    }
  }

  /** `p` lies under none of the roots. */
  predicate Outside(p: string, roots: seq<string>)
  {
    forall k | 0 <= k < |roots| :: !Under(p, roots[k])
  }

  /** On a consistent disk, a cleanup that answers True leaves nothing
      under any of the roots, and every path under none of them as it was;
      one that answers False met a file at one of the roots. */
  lemma CleanupEffect(d: Disk, roots: seq<string>)
    requires Consistent(d) && forall k | 0 <= k < |roots| :: roots[k] != ""
    ensures var (r, ok) := Cleaned(d, roots);
      (ok ==> forall p, k | 0 <= k < |roots| && (p in r.dirs || p in r.files) :: !Under(p, roots[k])) &&
      (!ok ==> exists k | 0 <= k < |roots| :: roots[k] in r.files) &&
      (forall p | Outside(p, roots) ::
         (p in r.dirs <==> p in d.dirs) && (p in r.files <==> p in d.files) &&
         (p in d.files ==> r.files[p] == d.files[p])) &&
      r.files.Keys <= d.files.Keys && r.dirs <= d.dirs
  {
    CleanupClears(d, roots);
    CleanupKeepsOutside(d, roots);
  }

  /** The first half of `CleanupEffect`: what happens under the roots. */
  lemma {:induction false} CleanupClears(d: Disk, roots: seq<string>)
    requires Consistent(d) && forall k | 0 <= k < |roots| :: roots[k] != ""
    ensures var (r, ok) := Cleaned(d, roots);
      (ok ==> forall p, k | 0 <= k < |roots| && (p in r.dirs || p in r.files) :: !Under(p, roots[k])) &&
      (!ok ==> exists k | 0 <= k < |roots| :: roots[k] in r.files)
    decreases |roots|
  {
    if roots != [] && roots[0] !in d.files {
      var next := Removed(d, roots[0]);
      RemovedConsistent(d, roots[0]);
      RootGone(d, roots[0]);
      CleanupClears(next, roots[1..]);
      var (r, ok) := Cleaned(next, roots[1..]);
      if ok {
        AllRootsGone(r, roots);
      } else {
        var k :| 0 <= k < |roots[1..]| && roots[1..][k] in r.files;
        assert roots[k + 1] in r.files;
      }
    } else if roots != [] {
      assert roots[0] in Cleaned(d, roots).0.files;
    }
  }

  /** The second half of `CleanupEffect`: what lies under none of the roots
      is left as it was. */
  lemma {:induction false} CleanupKeepsOutside(d: Disk, roots: seq<string>)
    ensures var r := Cleaned(d, roots).0;
      forall p | Outside(p, roots) ::
        (p in r.dirs <==> p in d.dirs) && (p in r.files <==> p in d.files) &&
        (p in d.files ==> r.files[p] == d.files[p])
    decreases |roots|
  {
    if roots != [] && roots[0] !in d.files {
      CleanupKeepsOutside(Removed(d, roots[0]), roots[1..]);
      forall p | Outside(p, roots)
        ensures Outside(p, roots[1..])
      {
        OutsideTail(p, roots);
      }
    }
  }

  /** The disk after one root's tree is removed, if it is a directory. */
  function Removed(d: Disk, root: string): Disk
  {
    if root in d.dirs then RemovedTree(d, root) else d
  }

  /** On a consistent disk, nothing is left under a root once its tree is
      removed, or when it was not there at all. */
  lemma RootGone(d: Disk, root: string)
    requires Consistent(d) && root != "" && root !in d.files
    ensures forall p | p in Removed(d, root).dirs || p in Removed(d, root).files :: !Under(p, root)
  {
    var next := Removed(d, root);
    forall p | p in next.dirs || p in next.files
      ensures !Under(p, root)
    {
      if root !in d.dirs && Under(p, root) {
        RootAbove(p, root);
      }
    }
  }

  /** Nothing under the first root and nothing under the others is nothing
      under any. */
  lemma AllRootsGone(d: Disk, roots: seq<string>)
    requires roots != []
    requires forall p | p in d.dirs || p in d.files :: !Under(p, roots[0])
    requires forall p, k | 0 <= k < |roots[1..]| && (p in d.dirs || p in d.files) :: !Under(p, roots[1..][k])
    ensures forall p, k | 0 <= k < |roots| && (p in d.dirs || p in d.files) :: !Under(p, roots[k])
  {
    forall p, k | 0 <= k < |roots| && (p in d.dirs || p in d.files)
      ensures !Under(p, roots[k])
    {
      if k > 0 {
        assert roots[1..][k - 1] == roots[k];
      }
    }
  }

  /** A path outside all the roots is outside all but the first. */
  lemma OutsideTail(p: string, roots: seq<string>)
    requires roots != [] && Outside(p, roots)
    ensures Outside(p, roots[1..])
  {
    forall k | 0 <= k < |roots[1..]|
      ensures !Under(p, roots[1..][k])
    {
      assert roots[1..][k] == roots[k + 1];
    }
  }

  /** The default archive path, or the one given. */
  function ArchiveTarget(projectId: int, archivePath: Option<string>): string
  {
    if archivePath.Some? then archivePath.value else Child(OutputDir, "project_" + Json.IntText(projectId) + "_archive.zip")
  }

  /** `str(path.with_suffix('')) + ".zip"`, the file `make_archive` writes. */
  function Zipped(path: string): (r: string)
    ensures EndsWith(r, ".zip") && |r| <= |path| + 4
    ensures Suffix(Name(path)) == "" ==> r == path + ".zip"
  {
    var suffix := Suffix(Name(path));
    (if EndsWith(path, suffix) then path[..|path| - |suffix|] else path) + ".zip"
  }

  /** The checks `archive_project` makes before writing, and the archive
      written when they pass. */
  function ArchiveWrite(d: Disk, projectId: int, target: string, zipped: Option<nat>): (r: Result<string>)
    ensures r.Ok? <==> Exists(d, ProjectDir(OutputDir, projectId)) && Name(target) != "" && zipped.Some?
    ensures r.Ok? ==> r.value == Zipped(target) && EndsWith(r.value, ".zip")
    ensures !Exists(d, ProjectDir(OutputDir, projectId)) ==> r.Err? && r.error.kind == "FileNotFoundError"
  {
    var project := ProjectDir(OutputDir, projectId);
    if !Exists(d, project) then Err(Error("FileNotFoundError", "Project directory not found: " + project))
    else if Name(target) == "" then Err(Error("ValueError", target + " has an empty name"))
    else if zipped.None? then Err(Error("OSError", "make_archive failed"))
    else Ok(Zipped(target))
  }

  /** A path ending in `.zip`, the default one included, names the archive
      that is written. */
  lemma ZipPathKept(stem: string)
    requires stem != "" && forall i | 0 <= i < |stem| :: stem[i] != '/'
    ensures Zipped(stem + ".zip") == stem + ".zip"
  {
    var name := stem + ".zip";
    PlainName(stem, ".zip");
    assert |name| > 1;
    NameOfPlain(name);
    SuffixOf(stem, "zip");
    assert stem + "." + "zip" == name;
    assert name[..|name| - 4] == stem;
  }

  /** A stem and a tail without a slash make a name without one. */
  lemma PlainName(stem: string, tail: string)
    requires stem != "" && forall i | 0 <= i < |stem| :: stem[i] != '/'
    requires forall i | 0 <= i < |tail| :: tail[i] != '/'
    ensures var name := stem + tail; forall i | 0 <= i < |name| :: name[i] != '/'
  {
    var name := stem + tail;
    forall i | 0 <= i < |name|
      ensures name[i] != '/'
    {
      if i < |stem| { assert name[i] == stem[i]; } else { assert name[i] == tail[i - |stem|]; }
    }
  }

  /** Without a `.zip` suffix the returned path is not the archive: asked
      for a path such as `project_7`, whose name has no dot,
      `archive_project` writes `project_7.zip` and returns `project_7`,
      which need not exist. */
  lemma ArchiveReturnsOtherPathAsWritten(name: string)
    requires name != "" && name != "."
    requires forall i | 0 <= i < |name| :: name[i] != '/' && name[i] != '.'
    ensures Zipped(name) == name + ".zip" != name
  {
    NameOfPlain(name);
    NoSuffix(name);
    assert name[..|name| - 0] == name;
  }
}
