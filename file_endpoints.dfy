/** The file endpoints of the backend API
    (backend/app/api/api_v1/endpoints/files.py): video upload, frame
    extraction, download and listing, over the `projects` table and the
    disk. The video processor is foreign: its outcome and the listing of
    the frames directory it fills are inputs. */
module FileEndpoints {
  import opened Wrappers
  import opened Text
  import opened Paths
  import opened FileManager
  import opened ProjectRows

  /** `settings.ALLOWED_VIDEO_FORMATS`. */
  const AllowedVideoFormats := ["mp4", "avi", "mov", "mkv"]

  const FormatRefused := "Unsupported video format. Allowed formats: ['mp4', 'avi', 'mov', 'mkv']"
  const SizeRefused := "File too large. Maximum size: 500.0MB"
  const NoVideo := "No video file found for this project"

  datatype UploadAnswer = UploadAnswer(message: string, filePath: string, fileSize: nat, projectId: int)

  datatype FramesAnswer = FramesAnswer(message: string, framesPath: string, totalFrames: nat, interval: real)

  /** What `download_file` serves: the path and the file name offered. */
  datatype Served = Served(path: string, filename: string)

  /** An entry of `list_project_files` (the modification time is left
      out). */
  datatype FileInfo = FileInfo(kind: string, path: string, size: nat)

  /** The first check `upload_video` fails, in the order the endpoint makes
      them: the format, then the size, then the project. */
  function UploadRefusal(filename: string, size: nat, found: bool): Option<(nat, string)>
  {
    if SplitExtension(filename) !in AllowedVideoFormats then Some((400, FormatRefused))
    else if size > MaxFileSize then Some((400, SizeRefused))
    else if !found then Some((404, NotFound))
    else None
  }

  /** The format check precedes the size check, which precedes the project
      lookup: a bad format is refused whatever the size and project, an
      oversized file whatever the project. */
  lemma ValidationOrder(filename: string, size: nat, found: bool)
    ensures SplitExtension(filename) !in AllowedVideoFormats ==> UploadRefusal(filename, size, found) == Some((400, FormatRefused))
    ensures SplitExtension(filename) in AllowedVideoFormats && size > MaxFileSize ==>
      UploadRefusal(filename, size, found) == Some((400, SizeRefused))
    ensures UploadRefusal(filename, size, found).None? <==>
      SplitExtension(filename) in AllowedVideoFormats && size <= MaxFileSize && found
  {
  }

  /** The format rule reads whatever follows the last dot, in any case: a
      name `stem.ext` with `ext` free of dots passes exactly when `ext`
      lower-cased is allowed, and a name with no dot at all passes when the
      whole name is, so a file called `mp4` is accepted. */
  lemma FormatRule(stem: string, ext: string)
    requires forall i | 0 <= i < |ext| :: ext[i] != '.'
    ensures SplitExtension(stem + "." + ext) == Lower(ext)
    ensures UploadRefusal("mp4", 0, true).None?
  {
    SplitAtLastDot(stem, ext);
    RulesDiffer();
  }

  lemma {:induction false} SplitAtLastDot(stem: string, ext: string)
    requires forall i | 0 <= i < |ext| :: ext[i] != '.'
    ensures |Split(stem + "." + ext, '.')| >= 2
    ensures LastPiece(stem + "." + ext, '.') == ext
    decreases |stem|
  {
    if stem == [] {
      assert stem + "." + ext == "" + ['.'] + ext;
      SplitAtFirst("", ext, '.');
      SplitWithoutSeparator(ext, '.');
    } else {
      assert (stem + "." + ext)[1..] == stem[1..] + "." + ext;
      SplitAtLastDot(stem[1..], ext);
    }
  }

  /** `upload_video`. The checks run in order; then the file is saved
      under the uuid drawn, and the project's video path is set to it. A
      failed save answers 500 and leaves the project as it was. */
  method UploadVideo(table: ProjectTable, fs: FileService, projectId: int, filename: string, size: nat, uuid: string)
    returns (r: Reply<UploadAnswer>)
    modifies table, fs
    ensures var refusal := UploadRefusal(filename, size, FindProject(old(table.rows), projectId).Some?);
      (refusal.Some? ==> r == Refused(refusal.value.0, refusal.value.1) && table.rows == old(table.rows) &&
                         fs.disk == old(fs.disk)) &&
      (refusal.None? ==>
        var k := FindProject(old(table.rows), projectId).value;
        var target := UploadTarget(projectId, "videos", filename, uuid);
        if CanSave(old(fs.disk), projectId, "videos", filename, uuid) then
          r == Reply(UploadAnswer("Video uploaded successfully", target, size, projectId)) &&
          fs.disk.files == old(fs.disk.files)[target := size] &&
          table.rows == old(table.rows)[k := old(table.rows)[k].(videoPath := Some(target))]
        else r.Refused? && r.status == 500 && table.rows == old(table.rows) && fs.disk.files == old(fs.disk.files))
    ensures table.nextId == old(table.nextId)
  {
    if SplitExtension(filename) !in AllowedVideoFormats {
      return Refused(400, FormatRefused);
    }
    if size > MaxFileSize {
      return Refused(400, SizeRefused);
    }
    var k := FindProject(table.rows, projectId);
    if k.None? {
      return Refused(404, NotFound);
    }
    var saved := fs.SaveUploadedFile(filename, size, projectId, "videos", uuid);
    if saved.Err? {
      return Refused(500, "Upload failed: " + saved.error.message);
    }
    table.rows := table.rows[k.value := table.rows[k.value].(videoPath := Some(saved.value))];
    r := Reply(UploadAnswer("Video uploaded successfully", saved.value, size, projectId));
  }

  /** `extract_frames`: 404 for an unknown project, 400 when its video path
      is empty or missing on disk; then the processor runs (`extraction` is
      the frames directory it answers, or its error) and the project records
      the directory and the number of `.jpg` entries `listing` shows in
      it. */
  method ExtractFrames(table: ProjectTable, fs: FileService, projectId: int, interval: real,
                       extraction: Result<string>, listing: seq<string>)
    returns (r: Reply<FramesAnswer>)
    modifies table
    ensures FindProject(old(table.rows), projectId).None? ==> r == Refused(404, NotFound) && table.rows == old(table.rows)
    ensures FindProject(old(table.rows), projectId).Some? ==>
      var k := FindProject(old(table.rows), projectId).value;
      var p := old(table.rows)[k];
      if !Truthy(p.videoPath) || !Exists(fs.disk, p.videoPath.value) then
        r == Refused(400, NoVideo) && table.rows == old(table.rows)
      else if extraction.Err? then
        r == Refused(500, "Frame extraction failed: " + extraction.error.message) && table.rows == old(table.rows)
      else
        var total := |GlobMatches(listing, ".jpg")|;
        r == Reply(FramesAnswer("Frames extracted successfully", extraction.value, total, interval)) &&
        table.rows == old(table.rows)[k := p.(framesPath := Some(extraction.value), totalFrames := total)]
    ensures table.nextId == old(table.nextId)
  {
    var k := FindProject(table.rows, projectId);
    if k.None? {
      return Refused(404, NotFound);
    }
    var p := table.rows[k.value];
    if !Truthy(p.videoPath) || !Exists(fs.disk, p.videoPath.value) {
      return Refused(400, NoVideo);
    }
    if extraction.Err? {
      return Refused(500, "Frame extraction failed: " + extraction.error.message);
    }
    var total := |GlobMatches(listing, ".jpg")|;
    table.rows := table.rows[k.value := p.(framesPath := Some(extraction.value), totalFrames := total)];
    r := Reply(FramesAnswer("Frames extracted successfully", extraction.value, total, interval));
  }

  /** The path `download_file` picks for a type: the matching column when it
      is set, None for an unknown type or an empty column. */
  function PathFor(p: Project, fileType: string): Option<string>
  {
    if fileType == "video" && Truthy(p.videoPath) then p.videoPath
    else if fileType == "frames" && Truthy(p.framesPath) then p.framesPath
    else if fileType == "mesh" && Truthy(p.meshPath) then p.meshPath
    else if fileType == "textured_mesh" && Truthy(p.texturedMeshPath) then p.texturedMeshPath
    else if fileType == "point_cloud" && Truthy(p.pointCloudPath) then p.pointCloudPath
    else None
  }

  /** The column each downloadable type reads. */
  function Column(p: Project, fileType: string): Option<string>
  {
    match fileType
    case "video" => p.videoPath
    case "frames" => p.framesPath
    case "mesh" => p.meshPath
    case "textured_mesh" => p.texturedMeshPath
    case "point_cloud" => p.pointCloudPath
    case _ => None
  }

  /** `download_file`: 404 for an unknown project; otherwise the file of the
      type, offered under its base name, or 404 when the type is unknown,
      its column empty or the path missing on disk. */
  function DownloadFile(table: ProjectTable, fs: FileService, projectId: int, fileType: string): (r: Reply<Served>)
    reads table, fs
    ensures FindProject(table.rows, projectId).None? ==> r == Refused(404, NotFound)
    ensures r.Reply? ==> FindProject(table.rows, projectId).Some? && Exists(fs.disk, r.body.path) &&
                         Column(table.rows[FindProject(table.rows, projectId).value], fileType) == Some(r.body.path)
  {
    match FindProject(table.rows, projectId)
    case None => Refused(404, NotFound)
    case Some(k) =>
      var chosen := PathFor(table.rows[k], fileType);
      if chosen.None? || !Exists(fs.disk, chosen.value) then Refused(404, fileType + " file not found")
      else Reply(Served(chosen.value, LastPiece(chosen.value, '/')))
  }

  /** A download succeeds exactly for the five known types whose column is
      set to a path that exists. */
  lemma DownloadDispatch(table: ProjectTable, fs: FileService, projectId: int, fileType: string)
    requires FindProject(table.rows, projectId).Some?
    ensures var p := table.rows[FindProject(table.rows, projectId).value];
      DownloadFile(table, fs, projectId, fileType).Reply? <==>
        fileType in ["video", "frames", "mesh", "textured_mesh", "point_cloud"] &&
        Truthy(Column(p, fileType)) && Exists(fs.disk, Column(p, fileType).value)
    ensures DownloadFile(table, fs, projectId, fileType).Refused? ==>
      DownloadFile(table, fs, projectId, fileType).status == 404
  {
  }

  /** The five types `list_project_files` checks, in its order. */
  function Kinds(p: Project): seq<(string, Option<string>)>
  {
    [("video", p.videoPath), ("frames", p.framesPath), ("point_cloud", p.pointCloudPath), ("mesh", p.meshPath),
     ("textured_mesh", p.texturedMeshPath)]
  }

  /** The entries listed: the set columns whose path exists, in order. */
  function Listed(kinds: seq<(string, Option<string>)>, fs: FileService, dirSize: nat): seq<FileInfo>
    reads fs
  {
    if kinds == [] then []
    else
      var rest := Listed(kinds[..|kinds| - 1], fs, dirSize);
      var (kind, path) := kinds[|kinds| - 1];
      if Truthy(path) && Exists(fs.disk, path.value) then rest + [FileInfo(kind, path.value, fs.FileSize(path.value, dirSize))]
      else rest
  }

  /** Every listed entry exists and has its size; a type is listed, once,
      exactly when its column is set to a path that exists. */
  lemma {:induction false} ListedExactly(kinds: seq<(string, Option<string>)>, fs: FileService, dirSize: nat)
    requires forall i, j | 0 <= i < j < |kinds| :: kinds[i].0 != kinds[j].0
    ensures var r := Listed(kinds, fs, dirSize);
      (forall e | e in r :: Exists(fs.disk, e.path) && e.size == fs.FileSize(e.path, dirSize)) &&
      (forall i | 0 <= i < |kinds| ::
        (exists e | e in r :: e.kind == kinds[i].0) <==> Truthy(kinds[i].1) && Exists(fs.disk, kinds[i].1.value)) &&
      (forall a, b | 0 <= a < b < |r| :: r[a].kind != r[b].kind)
  {
    if kinds != [] {
      var init := kinds[..|kinds| - 1];
      ListedExactly(init, fs, dirSize);
      var rest := Listed(init, fs, dirSize);
      forall e | e in rest
        ensures e.kind != kinds[|kinds| - 1].0
      {
        var i := KindIndex(init, fs, dirSize, e);
        assert init[i] == kinds[i];
      }
      forall i | 0 <= i < |init|
        ensures (exists e | e in rest :: e.kind == kinds[i].0) <==> Truthy(kinds[i].1) && Exists(fs.disk, kinds[i].1.value)
      {
        assert init[i] == kinds[i];
      }
      var r := Listed(kinds, fs, dirSize);
      forall a, b | 0 <= a < b < |r|
        ensures r[a].kind != r[b].kind
      {
        if b >= |rest| {
          assert r[a] == rest[a] && r[a] in rest;
        } else {
          assert r[a] == rest[a] && r[b] == rest[b];
        }
      }
    }
  }

  /** Each listed entry comes from one of the kinds. */
  lemma {:induction false} KindIndex(kinds: seq<(string, Option<string>)>, fs: FileService, dirSize: nat, e: FileInfo)
    returns (i: nat)
    requires e in Listed(kinds, fs, dirSize)
    ensures i < |kinds| && kinds[i].0 == e.kind
  {
    var init := kinds[..|kinds| - 1];
    if e in Listed(init, fs, dirSize) {
      i := KindIndex(init, fs, dirSize, e);
    } else {
      i := |kinds| - 1;
    }
  }

  /** `list_project_files`: 404 for an unknown project; otherwise the
      loop over the five types collects the existing files, with the size
      `stat` gives (`dirSize` for a directory such as the frames folder). */
  method ListProjectFiles(table: ProjectTable, fs: FileService, projectId: int, dirSize: nat)
    returns (r: Reply<seq<FileInfo>>)
    ensures FindProject(table.rows, projectId).None? ==> r == Refused(404, NotFound)
    ensures FindProject(table.rows, projectId).Some? ==>
      r == Reply(Listed(Kinds(table.rows[FindProject(table.rows, projectId).value]), fs, dirSize))
  {
    var k := FindProject(table.rows, projectId);
    if k.None? {
      return Refused(404, NotFound);
    }
    var kinds := Kinds(table.rows[k.value]);
    var files: seq<FileInfo> := [];
    for i := 0 to |kinds|
      invariant files == Listed(kinds[..i], fs, dirSize)
    {
      assert kinds[..i + 1][..i] == kinds[..i];
      var (kind, path) := kinds[i];
      if Truthy(path) && Exists(fs.disk, path.value) {
        files := files + [FileInfo(kind, path.value, fs.FileSize(path.value, dirSize))];
      }
    }
    assert kinds[..|kinds|] == kinds;
    r := Reply(files);
  }
}
