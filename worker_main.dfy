/** The stand-alone COLMAP worker service (colmap-worker/main.py): a job
    dictionary filled by two background tasks. Frame extraction samples a
    video with OpenCV; reconstruction runs feature extraction, exhaustive
    matching and the mapper, then optionally the three dense commands and
    the Poisson mesher, moving the job's progress through fixed checkpoints.
    Any failing command fails the whole job. The commands' outcomes, the
    directory listings and the video's frames are inputs. */
module WorkerMain {
  import opened Wrappers
  import opened Text
  import opened Sampling

  const UploadDir := "/app/uploads"
  const OutputDir := "/app/outputs"

  // ---------------------------------------------------------------------
  // Quality tiers

  /** The two caps of a `quality_params` entry that reach a command. */
  datatype Params = Params(maxImageSize: nat, maxNumFeatures: nat)

  /** The `quality_params` table. */
  function Tier(quality: string): Option<Params>
  {
    match quality
    case "low" => Some(Params(800, 4000))
    case "medium" => Some(Params(1200, 8000))
    case "high" => Some(Params(1600, 12000))
    case "extreme" => Some(Params(2400, 20000))
    case _ => None
  }

  /** `quality_params.get(quality, quality_params["medium"])`. */
  function ParamsFor(quality: string): (p: Params)
    ensures Tier(quality).Some? ==> p == Tier(quality).value
    ensures Tier(quality).None? ==> p == Params(1200, 8000)
  {
    match Tier(quality)
    case Some(p) => p
    case None => Params(1200, 8000)
  }

  /** The four tiers and nothing else; each higher tier raises both caps. */
  lemma TierOrder(quality: string)
    ensures Tier(quality).Some? <==> quality in ["low", "medium", "high", "extreme"]
    ensures ParamsFor("low").maxImageSize < ParamsFor("medium").maxImageSize < ParamsFor("high").maxImageSize
            < ParamsFor("extreme").maxImageSize
    ensures ParamsFor("low").maxNumFeatures < ParamsFor("medium").maxNumFeatures < ParamsFor("high").maxNumFeatures
            < ParamsFor("extreme").maxNumFeatures
  {
  }

  // ---------------------------------------------------------------------
  // Jobs

  datatype Status = Pending | Running | Completed | Failed

  function StatusName(s: Status): string
  {
    match s
    case Pending => "pending"
    case Running => "running"
    case Completed => "completed"
    case Failed => "failed"
  }

  datatype Kind = FrameExtraction | Reconstruction

  /** A reconstruction stage, as the stage methods name it in their errors. */
  datatype Stage = Features | Matching | Sparse | Dense | Meshing

  /** One COLMAP command of the reconstruction, in the order they run. */
  datatype Call = FeatureCall | MatchCall | MapperCall | UndistortCall | StereoCall | FusionCall | MeshCall

  function StageOf(c: Call): Stage
  {
    match c
    case FeatureCall => Features
    case MatchCall => Matching
    case MapperCall => Sparse
    case UndistortCall => Dense
    case StereoCall => Dense
    case FusionCall => Dense
    case MeshCall => Meshing
  }

  /** The messages a job shows. */
  datatype Message =
    | StartingExtraction | StartingReconstruction
    | ExtractingFrames | ExtractionDone(frames: nat) | ExtractionFailed(reason: string)
    | CallStarted(call: Call) | StageDone(stage: Stage) | ProcessingFailed(reason: string)
    | ReconstructionDone | ReconstructionFailed(reason: string)

  function StageName(s: Stage): string
  {
    match s
    case Features => "Feature extraction"
    case Matching => "Feature matching"
    case Sparse => "Sparse reconstruction"
    case Dense => "Dense reconstruction"
    case Meshing => "Mesh creation"
  }

  function CallText(c: Call): string
  {
    match c
    case FeatureCall => "Extracting SIFT features..."
    case MatchCall => "Matching features between images..."
    case MapperCall => "Creating sparse 3D reconstruction..."
    case UndistortCall => "Creating dense 3D reconstruction..."
    case StereoCall => "Running patch match stereo..."
    case FusionCall => "Fusing stereo depth maps..."
    case MeshCall => "Creating mesh from point cloud..."
  }

  function MessageText(m: Message): string
  {
    match m
    case StartingExtraction => "Starting frame extraction..."
    case StartingReconstruction => "Starting COLMAP reconstruction pipeline..."
    case ExtractingFrames => "Extracting frames from video..."
    case ExtractionDone(n) => "Frame extraction completed. " + Decimal(n) + " frames extracted."
    case ExtractionFailed(reason) => "Frame extraction failed: " + reason
    case CallStarted(c) => CallText(c)
    case StageDone(s) => StageName(s) + " completed"
    case ProcessingFailed(reason) => "COLMAP processing failed: " + reason
    case ReconstructionDone => "COLMAP reconstruction completed successfully!"
    case ReconstructionFailed(reason) => "COLMAP reconstruction failed: " + reason
  }

  /** The `results` a finished task stores: the frame-extraction report, or
      the keys of the reconstruction's flags (each one `True`). */
  datatype Results =
    | FramesReport(framesExtracted: nat, totalVideoFrames: int, imagesDirectory: string)
    | StagesReport(keys: seq<string>)

  /** The request body both tasks take. */
  datatype Request = Request(projectId: string, quality: string, dense: bool, meshing: bool, texturing: bool,
                             frameRate: int, maxImageSize: Option<int>, maxNumFeatures: Option<int>)

  /** What a status poll shows of a job. */
  datatype JobView = JobView(status: Status, progress: nat, message: Message, results: Option<Results>)

  /** One entry of the `jobs` dictionary; the background tasks update it in place. */
  class Job {
    const id: string
    const projectId: string
    const kind: Kind
    /** The request, kept only by reconstruction jobs (`parameters`). */
    const parameters: Option<Request>
    var status: Status
    var progress: nat
    var message: Message
    var results: Option<Results>
    /** Every value progress was set to, in order. */
    ghost var progressLog: seq<nat>

    constructor (id: string, req: Request, kind: Kind)
      ensures this.id == id && projectId == req.projectId && this.kind == kind
      ensures parameters == (if kind == Reconstruction then Some(req) else None)
      ensures status == Pending && progress == 0 && results == None && progressLog == []
      ensures message == (if kind == Reconstruction then StartingReconstruction else StartingExtraction)
    {
      this.id, projectId, this.kind := id, req.projectId, kind;
      parameters := if kind == Reconstruction then Some(req) else None;
      status, progress, results := Pending, 0, None;
      message := if kind == Reconstruction then StartingReconstruction else StartingExtraction;
      progressLog := [];
    }

    function View(): JobView
      reads this
    {
      JobView(status, progress, message, results)
    }
  }

  /** `{"success": True, "job_id": ..., "message": ...}` of the two task endpoints. */
  datatype Started = Started(jobId: string, message: string)

  /** The `jobs` dictionary. */
  class JobTable {
    var jobs: map<string, Job>

    constructor ()
      ensures jobs == map[]
    {
      jobs := map[];
    }

    /** `extract_frames`: a pending job under the fresh id (an id already
        present is overwritten); the background task itself runs later. */
    method ExtractFrames(jobId: string, req: Request) returns (reply: Started, job: Job)
      modifies this
      ensures fresh(job) && jobs == old(jobs)[jobId := job]
      ensures job.id == jobId && job.projectId == req.projectId && job.kind == FrameExtraction
      ensures job.View() == JobView(Pending, 0, StartingExtraction, None) && job.progressLog == []
      ensures reply == Started(jobId, "Frame extraction started")
    {
      job := new Job(jobId, req, FrameExtraction);
      jobs := jobs[jobId := job];
      reply := Started(jobId, "Frame extraction started");
    }

    /** `start_reconstruction`: as `extract_frames`, keeping the request. */
    method StartReconstruction(jobId: string, req: Request) returns (reply: Started, job: Job)
      modifies this
      ensures fresh(job) && jobs == old(jobs)[jobId := job]
      ensures job.id == jobId && job.kind == Reconstruction && job.parameters == Some(req)
      ensures job.View() == JobView(Pending, 0, StartingReconstruction, None) && job.progressLog == []
      ensures reply == Started(jobId, "COLMAP reconstruction started")
    {
      job := new Job(jobId, req, Reconstruction);
      jobs := jobs[jobId := job];
      reply := Started(jobId, "COLMAP reconstruction started");
    }

    /** `get_job_status`: 404 for an unknown id, otherwise the job. */
    function GetJobStatus(jobId: string): (r: Reply<Job>)
      reads this
      ensures r.Reply? <==> jobId in jobs
      ensures r.Reply? ==> r.body == jobs[jobId]
      ensures r.Refused? ==> r == Refused(404, "Job not found")
    {
      if jobId !in jobs then Refused(404, "Job not found") else Reply(jobs[jobId])
    }
  }

  // ---------------------------------------------------------------------
  // Uploads and downloads

  /** `{"success": True, ...}` of a stored upload. */
  datatype Upload = Upload(projectId: string, filename: string, size: nat, path: string)

  const NotAVideo := "Invalid file type. Please upload a video file."

  /** `upload_video` as written: the 400 for a non-video content type is
      raised inside the `try`, whose `except Exception` turns it into a 500
      carrying `str()` of the HTTPException; a missing content type fails
      the same way. `written` is the error of making the directory or of
      the write, if any; both are inside the `try`. */
  function UploadVideoAsWritten(projectId: string, filename: string, contentType: Option<string>, size: nat,
                                written: Option<string>): (r: Reply<Upload>)
    ensures r.Refused? ==> r.status == 500
  {
    if contentType.None? then Refused(500, "Video upload failed: 'NoneType' object has no attribute 'startswith'")
    else if !StartsWith(contentType.value, "video/") then Refused(500, "Video upload failed: 400: " + NotAVideo)
    else if written.Some? then Refused(500, "Video upload failed: " + written.value)
    else Reply(Upload(projectId, filename, size, UploadPath(projectId, filename)))
  }

  /** `UPLOAD_DIR / project_id / file.filename`: pathlib lets an absolute
      form field replace what precedes it. */
  function UploadPath(projectId: string, filename: string): (r: string)
    ensures StartsWith(filename, "/") ==> r == filename
    ensures !StartsWith(filename, "/") && StartsWith(projectId, "/") ==> r == Child(projectId, filename)
    ensures !StartsWith(filename, "/") && !StartsWith(projectId, "/") ==> r == Child(Child(UploadDir, projectId), filename)
  {
    PathJoin(PathJoin(UploadDir, projectId), filename)
  }

  /** A text file is refused with 500, not with the 400 the check raises. */
  lemma NotAVideoIsServerErrorAsWritten()
    ensures UploadVideoAsWritten("p", "notes.txt", Some("text/plain"), 3, None)
            == Refused(500, "Video upload failed: 400: " + NotAVideo)
  {
    assert "text/plain"[0] != "video/"[0];
  }

  /** `upload_video` as evidently intended: a non-video content type is the
      client's error (400); only a failed write is the server's (500). */
  function UploadVideo(projectId: string, filename: string, contentType: Option<string>, size: nat,
                       written: Option<string>): (r: Reply<Upload>)
    ensures r.Refused? && r.status == 400 <==> contentType.None? || !StartsWith(contentType.value, "video/")
    ensures r.Refused? && r.status == 500 <==> contentType.Some? && StartsWith(contentType.value, "video/") && written.Some?
    ensures r.Reply? ==> r.body == Upload(projectId, filename, size, UploadPath(projectId, filename))
  {
    if contentType.None? || !StartsWith(contentType.value, "video/") then Refused(400, NotAVideo)
    else if written.Some? then Refused(500, "Video upload failed: " + written.value)
    else Reply(Upload(projectId, filename, size, UploadPath(projectId, filename)))
  }

  /** The two agree on every upload with a video content type. */
  lemma UploadsAgreeOnVideos(projectId: string, filename: string, contentType: string, size: nat,
                             written: Option<string>)
    requires StartsWith(contentType, "video/")
    ensures UploadVideo(projectId, filename, Some(contentType), size, written)
            == UploadVideoAsWritten(projectId, filename, Some(contentType), size, written)
  {
  }

  function OutDir(projectId: string): string
  {
    Child(OutputDir, projectId)
  }

  /** `download_file`'s `file_map`. */
  function DownloadPath(projectId: string, fileType: string): Option<string>
  {
    match fileType
    case "sparse" => Some(Child(Child(Child(OutDir(projectId), "sparse"), "0"), "points3D.ply"))
    case "dense" => Some(Child(Child(OutDir(projectId), "dense"), "fused.ply"))
    case "mesh" => Some(Child(Child(OutDir(projectId), "dense"), "meshed-poisson.ply"))
    case _ => None
  }

  /** A file response: the path served and the download name. */
  datatype Download = Download(path: string, filename: string)

  /** `download_file`: 400 for a type outside the map, 404 when the file is
      absent, else the file under the name `<project>_<type>.ply`. */
  function DownloadFile(projectId: string, fileType: string, existing: set<string>): (r: Reply<Download>)
    ensures r == Refused(400, "Invalid file type") <==> fileType !in ["sparse", "dense", "mesh"]
    ensures r == Refused(404, "File not found") <==>
      fileType in ["sparse", "dense", "mesh"] && DownloadPath(projectId, fileType).value !in existing
    ensures r.Reply? ==> r.body.path in existing && r.body.filename == projectId + "_" + fileType + ".ply"
  {
    match DownloadPath(projectId, fileType)
    case None => Refused(400, "Invalid file type")
    case Some(path) =>
      if path !in existing then Refused(404, "File not found")
      else Reply(Download(path, projectId + "_" + fileType + ".ply"))
  }

  // ---------------------------------------------------------------------
  // Frame extraction

  /** What OpenCV reports of the video: whether it opened, how many frames
      `read()` yields, and the frame count the container claims. */
  datatype Video = Video(opens: bool, framesRead: nat, totalFrames: int)

  /** How many frames the loop keeps: frame k when k % frame_rate == 0,
      which for a negative rate means every |rate|-th frame. */
  function Saved(framesRead: nat, frameRate: int): nat
  {
    if frameRate == 0 then 0 else |Kept(framesRead, Abs(frameRate))|
  }

  /** `extract_frames_from_video`: the number of frames written, or the
      error it raises. A zero rate fails on the first frame; a container
      reporting 0 frames fails at the tenth frame kept, when the progress
      update divides by the frame count. */
  function VideoFrames(video: Video, frameRate: int, videoPath: string): (r: Result<nat>)
    ensures r.Ok? ==> r.value == Saved(video.framesRead, frameRate)
  {
    if !video.opens then Err(Error("Exception", "Could not open video file: " + videoPath))
    else if frameRate == 0 && video.framesRead > 0 then Err(Error("ZeroDivisionError", ModuloByZero))
    else if video.totalFrames == 0 && Saved(video.framesRead, frameRate) >= 10
    then Err(Error("ZeroDivisionError", "division by zero"))
    else Ok(Saved(video.framesRead, frameRate))
  }

  /** How many frame files exist when the extraction returns or raises. */
  function WrittenCount(video: Video, frameRate: int): nat
  {
    if !video.opens then 0
    else if video.totalFrames == 0 && Saved(video.framesRead, frameRate) >= 10 then 10
    else Saved(video.framesRead, frameRate)
  }

  /** A non-zero rate of either sign keeps exactly the multiples of |rate|,
      ceil(framesRead / |rate|) frames in all. */
  lemma SavedFrames(framesRead: nat, frameRate: int)
    requires frameRate != 0
    ensures Saved(framesRead, frameRate) == (framesRead + Abs(frameRate) - 1) / Abs(frameRate)
    ensures forall k :: k in Kept(framesRead, Abs(frameRate)) <==> 0 <= k < framesRead && k % frameRate == 0
  {
    KeptCount(framesRead, Abs(frameRate));
    KeptMembers(framesRead, Abs(frameRate));
    forall k: int ensures k % frameRate == k % Abs(frameRate) {
      ModAbs(k, frameRate);
    }
  }

  /** Python's `k % d == 0` tests divisibility by |d| for either sign of d;
      so does the remainder modulo d here. */
  lemma ModAbs(k: int, d: int)
    requires d != 0
    ensures k % d == k % Abs(d)
  {
    if d < 0 {
      assert k == (-(k / d)) * Abs(d) + k % d;
      DivUnique(k, Abs(d), -(k / d), k % d);
    }
  }

  /** The OpenCV loop of `extract_frames_from_video`, for a known job. The
      answer is the frame count or the error raised; `written` is the set
      of frame files in the images directory afterwards. */
  method ExtractFramesFromVideo(job: Job, video: Video, frameRate: int, videoPath: string)
    returns (r: Result<nat>, written: set<string>)
    modifies job
    ensures r == VideoFrames(video, frameRate, videoPath)
    ensures written == FrameSet(WrittenCount(video, frameRate))
    ensures job.progressLog == old(job.progressLog) + [10] + (if r.Ok? then [30] else [])
    ensures r.Ok? ==> job.status == old(job.status) && job.progress == 30 && job.message == ExtractionDone(r.value)
    ensures r.Err? ==> job.status == Failed && job.progress == 10 && job.message == ExtractionFailed(r.error.message)
    ensures job.results == old(job.results)
  {
    job.message, job.progress := ExtractingFrames, 10;
    job.progressLog := job.progressLog + [10];
    if !video.opens {
      r, written := Err(Error("Exception", "Could not open video file: " + videoPath)), {};
      job.status, job.message := Failed, ExtractionFailed(r.error.message);
      return;
    }
    r, written := ReadFrames(video, frameRate, videoPath);
    if r.Err? {
      job.status, job.message := Failed, ExtractionFailed(r.error.message);
    } else {
      job.progress, job.message := 30, ExtractionDone(r.value);
      job.progressLog := job.progressLog + [30];
    }
  }

  /** The read loop of an opened video: every frame whose index is a
      multiple of the rate is written, until the frames run out or the
      progress update raises. */
  method ReadFrames(video: Video, frameRate: int, videoPath: string) returns (r: Result<nat>, written: set<string>)
    requires video.opens
    ensures r == VideoFrames(video, frameRate, videoPath)
    ensures written == FrameSet(WrittenCount(video, frameRate))
  {
    written := {};
    var frameCount: nat := 0;
    var extracted: nat := 0;
    while frameCount < video.framesRead
      invariant frameCount <= video.framesRead
      invariant frameRate != 0 ==> extracted == |Kept(frameCount, Abs(frameRate))|
      invariant frameRate == 0 ==> frameCount == 0 && extracted == 0
      invariant video.totalFrames == 0 ==> extracted < 10
      invariant written == FrameSet(extracted)
    {
      if frameRate == 0 {
        return Err(Error("ZeroDivisionError", ModuloByZero)), written;
      }
      KeptStep(frameCount, frameRate);
      if frameCount % frameRate == 0 {
        FrameSetStep(extracted);
        written := written + {FrameName(extracted)};
        extracted := extracted + 1;
        if video.totalFrames == 0 {
          TenthFrame(extracted);
        }
        if extracted % 10 == 0 && video.totalFrames == 0 {
          KeptGrows(frameCount + 1, video.framesRead, Abs(frameRate));
          return Err(Error("ZeroDivisionError", "division by zero")), written;
        }
      }
      frameCount := frameCount + 1;
    }
    r := Ok(extracted);
  }

  /** Reading frame k keeps it exactly when k % rate == 0. */
  lemma KeptStep(k: nat, rate: int)
    requires rate != 0
    ensures |Kept(k + 1, Abs(rate))| == |Kept(k, Abs(rate))| + (if k % rate == 0 then 1 else 0)
  {
    ModAbs(k, rate);
  }

  /** Before the tenth frame is written, the count is a multiple of ten
      only at ten. */
  lemma TenthFrame(n: nat)
    requires 1 <= n <= 10
    ensures (n % 10 == 0) == (n == 10)
  {
  }

  lemma FrameSetStep(n: nat)
    ensures FrameSet(n + 1) == FrameSet(n) + {FrameName(n)}
  {
  }

  /** The project's videos in the order the background task looks for them: every
      `*.mp4`, then `*.avi` and `*.mov` (no `*.mkv`), each in directory order. */
  function VideoFiles(listing: seq<string>): (r: seq<string>)
    ensures forall v | v in r :: v in listing
    ensures forall v | v in listing && (EndsWith(v, ".mp4") || EndsWith(v, ".avi") || EndsWith(v, ".mov")) :: v in r
  {
    GlobMatches(listing, ".mp4") + GlobMatches(listing, ".avi") + GlobMatches(listing, ".mov")
  }

  function ImagesDir(projectId: string): string
  {
    Child(OutDir(projectId), "images")
  }

  const NoVideo := "No video file found in project directory"

  /** What `extract_frames_task` leaves in the job. A failure keeps the
      job's progress from the last checkpoint and its results. */
  function FramesTask(v: JobView, req: Request, listing: seq<string>, video: Video): (r: JobView)
    ensures r.status in {Completed, Failed}
    ensures r.status == Failed ==> r.results == v.results && r.message.ExtractionFailed?
    ensures r.status == Completed ==>
      VideoFiles(listing) != [] && r.progress == 100 && r.results.Some? && r.results.value.FramesReport? &&
      r.results.value.imagesDirectory == ImagesDir(req.projectId)
  {
    var videos := VideoFiles(listing);
    if videos == [] then JobView(Failed, v.progress, ExtractionFailed(NoVideo), v.results)
    else match VideoFrames(video, req.frameRate, Child(Child(UploadDir, req.projectId), videos[0]))
      case Err(e) => JobView(Failed, 10, ExtractionFailed(e.message), v.results)
      case Ok(n) => JobView(Completed, 100, ExtractionDone(n),
                            Some(FramesReport(n, video.totalFrames, ImagesDir(req.projectId))))
  }

  /** The progress values `extract_frames_task` sets. */
  function FramesTaskProgress(req: Request, listing: seq<string>, video: Video): seq<nat>
  {
    var videos := VideoFiles(listing);
    if videos == [] then []
    else if VideoFrames(video, req.frameRate, Child(Child(UploadDir, req.projectId), videos[0])).Err? then [10]
    else [10, 30, 100]
  }

  /** The background task `extract_frames_task`. The upload directory's
      listing and the video are inputs; the answer is the set of frame
      files written. */
  method ExtractFramesTask(job: Job, req: Request, listing: seq<string>, video: Video) returns (written: set<string>)
    modifies job
    ensures job.View() == FramesTask(old(job.View()), req, listing, video)
    ensures job.progressLog == old(job.progressLog) + FramesTaskProgress(req, listing, video)
    ensures written == if VideoFiles(listing) == [] then {} else FrameSet(WrittenCount(video, req.frameRate))
  {
    job.status := Running;
    var videos := VideoFiles(listing);
    if videos == [] {
      job.status, job.message := Failed, ExtractionFailed(NoVideo);
      return {};
    }
    var r;
    r, written := ExtractFramesFromVideo(job, video, req.frameRate, Child(Child(UploadDir, req.projectId), videos[0]));
    if r.Err? {
      job.status, job.message := Failed, ExtractionFailed(r.error.message);
      return;
    }
    job.status, job.progress, job.message := Completed, 100, ExtractionDone(r.value);
    job.results := Some(FramesReport(r.value, video.totalFrames, ImagesDir(req.projectId)));
    job.progressLog := job.progressLog + [100];
  }

  /** Extraction completes exactly when a video exists, opens, the rate is
      usable and the frame count is known or under ten frames are kept; it
      then reports every frame kept, all written under distinct names. */
  lemma FramesTaskOutcome(v: JobView, req: Request, listing: seq<string>, video: Video)
    requires VideoFiles(listing) != []
    ensures var w := FramesTask(v, req, listing, video);
      (w.status == Completed <==>
         video.opens && (req.frameRate != 0 || video.framesRead == 0) &&
         (video.totalFrames != 0 || Saved(video.framesRead, req.frameRate) < 10)) &&
      (w.status == Completed ==> w.results.value.framesExtracted == Saved(video.framesRead, req.frameRate) &&
                                 |FrameSet(WrittenCount(video, req.frameRate))| == Saved(video.framesRead, req.frameRate))
  {
    var n := Saved(video.framesRead, req.frameRate);
    if FramesTask(v, req, listing, video).status == Completed {
      FrameSetSize(n);
    }
  }

  /** n frame counters give n distinct files. */
  lemma {:induction false} FrameSetSize(n: nat)
    ensures |FrameSet(n)| == n
  {
    if n > 0 {
      FrameSetSize(n - 1);
      assert FrameSet(n) == FrameSet(n - 1) + {FrameName(n - 1)};
      if FrameName(n - 1) in FrameSet(n - 1) {
        var i :| 0 <= i < n - 1 && FrameName(n - 1) == FrameName(i);
        FrameNamesDistinct(n - 1, i);
      }
    }
  }

  /** An `.mp4` is always chosen over the other kinds. */
  lemma Mp4First(listing: seq<string>, v: string)
    requires v in listing && Globbed(v, ".mp4")
    ensures VideoFiles(listing) != [] && Globbed(VideoFiles(listing)[0], ".mp4")
  {
    var m := GlobMatches(listing, ".mp4");
    assert v in m;
    assert VideoFiles(listing)[0] == m[0];
    assert m[0] in m;
  }

  // ---------------------------------------------------------------------
  // Reconstruction

  /** The commands the request enables, in the order the background task runs them:
      the three required ones, the dense three when requested, the mesher
      when requested. */
  function Calls(req: Request): seq<Call>
  {
    [FeatureCall, MatchCall, MapperCall] + (if req.dense then [UndistortCall, StereoCall, FusionCall] else [])
    + (if req.meshing then [MeshCall] else [])
  }

  /** The exit of each command that would run. */
  datatype Runs = Runs(features: ToolOutcome, matching: ToolOutcome, mapper: ToolOutcome, undistort: ToolOutcome,
                       stereo: ToolOutcome, fusion: ToolOutcome, mesh: ToolOutcome)

  function OutcomeOf(c: Call, runs: Runs): ToolOutcome
  {
    match c
    case FeatureCall => runs.features
    case MatchCall => runs.matching
    case MapperCall => runs.mapper
    case UndistortCall => runs.undistort
    case StereoCall => runs.stereo
    case FusionCall => runs.fusion
    case MeshCall => runs.mesh
  }

  /** The checkpoint set just before a command runs. */
  function Pre(c: Call): nat
  {
    match c
    case FeatureCall => 35
    case MatchCall => 50
    case MapperCall => 65
    case UndistortCall => 80
    case StereoCall => 85
    case FusionCall => 90
    case MeshCall => 97
  }

  /** The checkpoint set once a command succeeds, where its stage sets one. */
  function Post(c: Call): seq<nat>
  {
    match c
    case FeatureCall => [45]
    case MatchCall => [60]
    case MapperCall => [75]
    case FusionCall => [95]
    case _ => []
  }

  /** The message a command leaves once it succeeds. */
  function After(c: Call): Message
  {
    match c
    case UndistortCall => CallStarted(UndistortCall)
    case StereoCall => CallStarted(StereoCall)
    case _ => StageDone(StageOf(c))
  }

  /** `stderr.decode() if stderr else "Unknown error"`. */
  function ErrorText(stderr: string): string
  {
    if stderr == [] then "Unknown error" else stderr
  }

  /** The text of the exception `run_colmap_command` raises. */
  function CommandFailure(stderr: string): string
  {
    "COLMAP command failed: " + ErrorText(stderr)
  }

  /** The text the background task catches: the stage method wraps the command's error. */
  function FailureText(c: Call, stderr: string): string
  {
    StageName(StageOf(c)) + " failed: " + CommandFailure(stderr)
  }

  /** The first of the calls whose command fails. */
  function Failure(calls: seq<Call>, runs: Runs): (f: Option<Call>)
    ensures f.Some? ==> OutcomeOf(f.value, runs).ToolFail?
  {
    if calls == [] then None
    else if OutcomeOf(calls[0], runs).ToolFail? then Some(calls[0])
    else Failure(calls[1..], runs)
  }

  /** The failure found is a failing call of the list, and none is found
      only when every call succeeds. */
  lemma {:induction false} FailureIsFailing(calls: seq<Call>, runs: Runs)
    ensures Failure(calls, runs).Some? ==>
      Failure(calls, runs).value in calls && OutcomeOf(Failure(calls, runs).value, runs).ToolFail?
    ensures Failure(calls, runs).None? <==> forall c | c in calls :: OutcomeOf(c, runs).ToolOk?
  {
    if calls != [] {
      FailureIsFailing(calls[1..], runs);
      assert forall c | c in calls :: c == calls[0] || c in calls[1..];
    }
  }

  /** The progress values set while running the calls: each command's
      checkpoint, and its stage's closing checkpoint when it succeeds; after
      the last, 100. */
  function CallLog(calls: seq<Call>, runs: Runs): seq<nat>
  {
    if calls == [] then [100]
    else [Pre(calls[0])] + (if OutcomeOf(calls[0], runs).ToolFail? then [] else Post(calls[0]) + CallLog(calls[1..], runs))
  }

  /** Where the background task puts things. */
  datatype Layout = Layout(images: string, database: string, sparse: string, dense: string)

  function LayoutOf(projectId: string): Layout
  {
    Layout(ImagesDir(projectId), Child(OutDir(projectId), "database.db"), Child(OutDir(projectId), "sparse"),
           Child(OutDir(projectId), "dense"))
  }

  /** The command line of each call. */
  function Command(c: Call, l: Layout, p: Params): (r: seq<string>)
    ensures |r| >= 4 && r[0] == "colmap"
    ensures c in {FeatureCall, MatchCall, MapperCall} ==> r[2] == "--database_path" && r[3] == l.database
    ensures c == FeatureCall ==> |r| == 12 && r[9] == Decimal(p.maxImageSize) && r[11] == Decimal(p.maxNumFeatures)
    ensures c == MapperCall ==> |r| == 8 && r[7] == l.sparse
    ensures c == UndistortCall ==> |r| == 10 && r[5] == Child(l.sparse, "0") && r[7] == l.dense
    ensures c in {StereoCall, FusionCall} ==> r[3] == l.dense
    ensures c == MeshCall ==> |r| == 6 && r[3] == Child(l.dense, "fused.ply") && r[5] == Child(l.dense, "meshed-poisson.ply")
  {
    match c
    case FeatureCall =>
      ["colmap", "feature_extractor", "--database_path", l.database, "--image_path", l.images,
       "--ImageReader.single_camera", "1", "--SiftExtraction.max_image_size", Decimal(p.maxImageSize),
       "--SiftExtraction.max_num_features", Decimal(p.maxNumFeatures)]
    case MatchCall => ["colmap", "exhaustive_matcher", "--database_path", l.database]
    case MapperCall =>
      ["colmap", "mapper", "--database_path", l.database, "--image_path", l.images, "--output_path", l.sparse]
    case UndistortCall =>
      ["colmap", "image_undistorter", "--image_path", l.images, "--input_path", Child(l.sparse, "0"),
       "--output_path", l.dense, "--output_type", "COLMAP"]
    case StereoCall => ["colmap", "patch_match_stereo", "--workspace_path", l.dense, "--workspace_format", "COLMAP"]
    case FusionCall =>
      ["colmap", "stereo_fusion", "--workspace_path", l.dense, "--workspace_format", "COLMAP",
       "--input_type", "geometric", "--output_path", Child(l.dense, "fused.ply")]
    case MeshCall =>
      ["colmap", "poisson_mesher", "--input_path", Child(l.dense, "fused.ply"),
       "--output_path", Child(l.dense, "meshed-poisson.ply")]
  }

  /** The commands run: each call's, up to and including the first that fails. */
  function Issued(calls: seq<Call>, runs: Runs, l: Layout, p: Params): seq<seq<string>>
  {
    if calls == [] then []
    else [Command(calls[0], l, p)] + (if OutcomeOf(calls[0], runs).ToolFail? then [] else Issued(calls[1..], runs, l, p))
  }

  /** The keys of a completed reconstruction's `results`. */
  function ResultKeys(req: Request): seq<string>
  {
    ["sparse_reconstruction"] + (if req.dense then ["dense_reconstruction"] else [])
    + (if req.meshing then ["meshing"] else [])
  }

  const NoImages := "No images found. Please extract frames first."

  /** The image check: the images directory exists and holds a `*.jpg`. */
  predicate HasImages(images: Option<set<string>>)
  {
    images.Some? && JpgFiles(images.value) != {}
  }

  /** What `reconstruction_task` leaves in the job: without images it fails
      before any command; else the first failing command fails it at that
      command's checkpoint with the stage's wrapped error, or it completes
      with the flags of the stages run. A failure keeps the job's results. */
  function ReconstructionTask(v: JobView, req: Request, images: Option<set<string>>, runs: Runs): (r: JobView)
    ensures r.status in {Completed, Failed}
    ensures r.status == Completed <==> HasImages(images) && Failure(Calls(req), runs).None?
    ensures r.status == Failed ==> r.results == v.results && r.message.ReconstructionFailed?
    ensures r.status == Completed ==> r.progress == 100 && r.results == Some(StagesReport(ResultKeys(req)))
  {
    if !HasImages(images) then JobView(Failed, v.progress, ReconstructionFailed(NoImages), v.results)
    else StagesTask(v, req, runs)
  }

  /** What the stages leave in the job once the images are there. */
  function StagesTask(v: JobView, req: Request, runs: Runs): JobView
  {
    match Failure(Calls(req), runs)
    case Some(c) => JobView(Failed, Pre(c), ReconstructionFailed(FailureText(c, OutcomeOf(c, runs).stderr)), v.results)
    case None => JobView(Completed, 100, ReconstructionDone, Some(StagesReport(ResultKeys(req))))
  }

  /** `run_colmap_command` inside its stage method, for the first of the
      calls still to run: set the checkpoint and message, run the command,
      then either close the stage or fail the job. The command line is
      appended to the commands run so far; the other answer is the error the
      stage method raises, if any. */
  method RunCall(job: Job, c: Call, l: Layout, p: Params, outcome: ToolOutcome, issued: seq<seq<string>>,
                 ghost rest: seq<Call>, ghost runs: Runs) returns (err: Option<string>, issued': seq<seq<string>>)
    requires rest != [] && rest[0] == c && outcome == OutcomeOf(c, runs)
    modifies job
    ensures issued' == issued + [Command(c, l, p)]
    ensures err.None? <==> outcome.ToolOk?
    ensures err.Some? ==> err.value == FailureText(c, outcome.stderr)
    ensures err.Some? ==> job.progressLog == old(job.progressLog) + CallLog(rest, runs)
    ensures err.Some? ==> issued' == issued + Issued(rest, runs, l, p)
    ensures err.None? ==> job.progressLog + CallLog(rest[1..], runs) == old(job.progressLog) + CallLog(rest, runs)
    ensures err.None? ==> issued' + Issued(rest[1..], runs, l, p) == issued + Issued(rest, runs, l, p)
    ensures Failure(rest, runs) == if err.Some? then Some(c) else Failure(rest[1..], runs)
    ensures job.status == if err.Some? then Failed else old(job.status)
    ensures job.progress == if err.None? && Post(c) != [] then Post(c)[0] else Pre(c)
    ensures job.message == if err.Some? then ProcessingFailed(CommandFailure(outcome.stderr)) else After(c)
    ensures job.results == old(job.results)
  {
    if outcome.ToolFail? {
      FailedCallStep(job.progressLog, issued, c, rest, runs, l, p);
    } else {
      PassedCallStep(job.progressLog, issued, c, rest, runs, l, p);
    }
    StartCall(job, c);
    issued' := issued + [Command(c, l, p)];
    if outcome.ToolFail? {
      job.status, job.message := Failed, ProcessingFailed(CommandFailure(outcome.stderr));
      return Some(FailureText(c, outcome.stderr)), issued';
    }
    FinishCall(job, c);
    err := None;
  }

  /** One call's share of the progress values, the commands run and the
      first failure: a failing call ends all three. */
  lemma FailedCallStep(log: seq<nat>, issued: seq<seq<string>>, c: Call, rest: seq<Call>, runs: Runs, l: Layout, p: Params)
    requires rest != [] && rest[0] == c && OutcomeOf(c, runs).ToolFail?
    ensures log + [Pre(c)] == log + CallLog(rest, runs) && Failure(rest, runs) == Some(c)
    ensures issued + [Command(c, l, p)] == issued + Issued(rest, runs, l, p)
  {
  }

  /** A succeeding call's share: the rest follows. */
  lemma PassedCallStep(log: seq<nat>, issued: seq<seq<string>>, c: Call, rest: seq<Call>, runs: Runs, l: Layout, p: Params)
    requires rest != [] && rest[0] == c && OutcomeOf(c, runs).ToolOk?
    ensures log + [Pre(c)] + Post(c) + CallLog(rest[1..], runs) == log + CallLog(rest, runs)
    ensures Failure(rest, runs) == Failure(rest[1..], runs)
    ensures issued + [Command(c, l, p)] + Issued(rest[1..], runs, l, p) == issued + Issued(rest, runs, l, p)
  {
    assert CallLog(rest, runs) == [Pre(c)] + (Post(c) + CallLog(rest[1..], runs));
    Regroup(log, [Pre(c)], Post(c), CallLog(rest[1..], runs));
    assert Issued(rest, runs, l, p) == [Command(c, l, p)] + Issued(rest[1..], runs, l, p);
    AppendAssoc(issued, [Command(c, l, p)], Issued(rest[1..], runs, l, p));
  }

  lemma AppendAssoc<T>(a: seq<T>, b: seq<T>, c: seq<T>)
    ensures a + b + c == a + (b + c)
  {
  }

  /** The checkpoint and message set before a command runs. */
  method StartCall(job: Job, c: Call)
    modifies job
    ensures job.progressLog == old(job.progressLog) + [Pre(c)]
    ensures job.progress == Pre(c) && job.message == CallStarted(c)
    ensures job.status == old(job.status) && job.results == old(job.results)
  {
    job.message, job.progress := CallStarted(c), Pre(c);
    job.progressLog := job.progressLog + [Pre(c)];
  }

  /** The checkpoint and message set once a command succeeds. */
  method FinishCall(job: Job, c: Call)
    modifies job
    ensures job.progressLog == old(job.progressLog) + Post(c)
    ensures job.progress == if Post(c) != [] then Post(c)[0] else old(job.progress)
    ensures job.message == After(c)
    ensures job.status == old(job.status) && job.results == old(job.results)
  {
    if Post(c) != [] {
      job.progress := Post(c)[0];
    }
    job.message := After(c);
    job.progressLog := job.progressLog + Post(c);
  }

  lemma Regroup<T>(a: seq<T>, b: seq<T>, c: seq<T>, d: seq<T>)
    ensures a + b + c + d == a + (b + (c + d))
  {
  }

  /** `feature_extraction`, `feature_matching` and `sparse_reconstruction` in turn. */
  method RequiredStages(job: Job, l: Layout, p: Params, runs: Runs, issued: seq<seq<string>>, ghost rest: seq<Call>)
    returns (err: Option<string>, issued': seq<seq<string>>)
    requires |rest| >= 3 && rest[0] == FeatureCall && rest[1] == MatchCall && rest[2] == MapperCall
    modifies job
    ensures err.Some? ==> var c := Failure(rest, runs);
      c.Some? && err.value == FailureText(c.value, OutcomeOf(c.value, runs).stderr) &&
      job.progress == Pre(c.value) && job.status == Failed &&
      job.progressLog == old(job.progressLog) + CallLog(rest, runs) && issued' == issued + Issued(rest, runs, l, p)
    ensures err.None? ==> (Failure(rest, runs) == Failure(rest[3..], runs) && job.status == old(job.status) &&
                           job.progressLog + CallLog(rest[3..], runs) == old(job.progressLog) + CallLog(rest, runs) &&
                           issued' + Issued(rest[3..], runs, l, p) == issued + Issued(rest, runs, l, p))
    ensures job.results == old(job.results)
  {
    err, issued' := RunCall(job, FeatureCall, l, p, runs.features, issued, rest, runs);
    if err.Some? {
      return;
    }
    err, issued' := RunCall(job, MatchCall, l, p, runs.matching, issued', rest[1..], runs);
    if err.Some? {
      return;
    }
    assert rest[1..][1..] == rest[2..];
    err, issued' := RunCall(job, MapperCall, l, p, runs.mapper, issued', rest[2..], runs);
    assert rest[2..][1..] == rest[3..];
  }

  /** `dense_reconstruction`: undistortion, patch-match stereo and fusion in turn. */
  method DenseStage(job: Job, l: Layout, p: Params, runs: Runs, issued: seq<seq<string>>, ghost rest: seq<Call>)
    returns (err: Option<string>, issued': seq<seq<string>>)
    requires |rest| >= 3 && rest[0] == UndistortCall && rest[1] == StereoCall && rest[2] == FusionCall
    modifies job
    ensures err.Some? ==> var c := Failure(rest, runs);
      c.Some? && err.value == FailureText(c.value, OutcomeOf(c.value, runs).stderr) &&
      job.progress == Pre(c.value) && job.status == Failed &&
      job.progressLog == old(job.progressLog) + CallLog(rest, runs) && issued' == issued + Issued(rest, runs, l, p)
    ensures err.None? ==> (Failure(rest, runs) == Failure(rest[3..], runs) && job.status == old(job.status) &&
                           job.progressLog + CallLog(rest[3..], runs) == old(job.progressLog) + CallLog(rest, runs) &&
                           issued' + Issued(rest[3..], runs, l, p) == issued + Issued(rest, runs, l, p))
    ensures job.results == old(job.results)
  {
    err, issued' := RunCall(job, UndistortCall, l, p, runs.undistort, issued, rest, runs);
    if err.Some? {
      return;
    }
    err, issued' := RunCall(job, StereoCall, l, p, runs.stereo, issued', rest[1..], runs);
    if err.Some? {
      return;
    }
    assert rest[1..][1..] == rest[2..];
    err, issued' := RunCall(job, FusionCall, l, p, runs.fusion, issued', rest[2..], runs);
    assert rest[2..][1..] == rest[3..];
  }

  /** The optional stages: `dense_reconstruction` when dense is asked for,
      then `mesh_reconstruction` when meshing is. */
  method OptionalStages(job: Job, l: Layout, p: Params, runs: Runs, dense: bool, meshing: bool,
                        issued: seq<seq<string>>, ghost rest: seq<Call>)
    returns (err: Option<string>, issued': seq<seq<string>>)
    requires rest == (if dense then [UndistortCall, StereoCall, FusionCall] else []) + (if meshing then [MeshCall] else [])
    modifies job
    ensures err.Some? ==> var c := Failure(rest, runs);
      c.Some? && err.value == FailureText(c.value, OutcomeOf(c.value, runs).stderr) &&
      job.progress == Pre(c.value) && job.status == Failed &&
      job.progressLog == old(job.progressLog) + CallLog(rest, runs) && issued' == issued + Issued(rest, runs, l, p)
    ensures err.None? ==> (Failure(rest, runs).None? && job.status == old(job.status) &&
                           job.progressLog + [100] == old(job.progressLog) + CallLog(rest, runs) &&
                           issued' == issued + Issued(rest, runs, l, p))
    ensures job.results == old(job.results)
  {
    ghost var left := rest;
    issued' := issued;
    err := None;
    if dense {
      err, issued' := DenseStage(job, l, p, runs, issued, rest);
      if err.Some? {
        return;
      }
      left := rest[3..];
    }
    assert left == if meshing then [MeshCall] else [];
    if meshing {
      err, issued' := RunCall(job, MeshCall, l, p, runs.mesh, issued', left, runs);
      if err.Some? {
        return;
      }
      left := left[1..];
    }
    assert left == [];
  }

  /** The calls after the three required ones are the optional stages'. */
  lemma CallsTail(req: Request)
    ensures Calls(req)[3..] == (if req.dense then [UndistortCall, StereoCall, FusionCall] else [])
                               + (if req.meshing then [MeshCall] else [])
  {
  }

  /** The background task `reconstruction_task`, with the commands'
      outcomes as inputs. The answer is the command lines run, in order. */
  method ReconstructionTaskRun(job: Job, req: Request, images: Option<set<string>>, runs: Runs)
    returns (issued: seq<seq<string>>)
    modifies job
    ensures job.View() == ReconstructionTask(old(job.View()), req, images, runs)
    ensures HasImages(images) ==> job.progressLog == old(job.progressLog) + CallLog(Calls(req), runs)
    ensures HasImages(images) ==> issued == Issued(Calls(req), runs, LayoutOf(req.projectId), ParamsFor(req.quality))
    ensures !HasImages(images) ==> issued == [] && job.progressLog == old(job.progressLog)
  {
    job.status := Running;
    if !HasImages(images) {
      job.status, job.message := Failed, ReconstructionFailed(NoImages);
      return [];
    }
    issued := RunStages(job, req, runs);
  }

  /** The stage methods in turn, stopping at the first that raises. */
  method RunStages(job: Job, req: Request, runs: Runs) returns (issued: seq<seq<string>>)
    modifies job
    ensures job.View() == StagesTask(old(job.View()), req, runs)
    ensures job.progressLog == old(job.progressLog) + CallLog(Calls(req), runs)
    ensures issued == Issued(Calls(req), runs, LayoutOf(req.projectId), ParamsFor(req.quality))
  {
    var l := LayoutOf(req.projectId);
    var p := ParamsFor(req.quality);
    ghost var rest := Calls(req);
    var err;
    err, issued := RequiredStages(job, l, p, runs, [], rest);
    if err.None? {
      CallsTail(req);
      err, issued := OptionalStages(job, l, p, runs, req.dense, req.meshing, issued, rest[3..]);
    }
    if err.Some? {
      job.message := ReconstructionFailed(err.value);
      return;
    }
    job.status, job.progress, job.message := Completed, 100, ReconstructionDone;
    job.results := Some(StagesReport(ResultKeys(req)));
    job.progressLog := job.progressLog + [100];
  }

  /** The progress a call leaves behind when it succeeds. */
  function Top(c: Call): nat
  {
    if Post(c) == [] then Pre(c) else Post(c)[0]
  }

  /** Each call's checkpoints come before the next call's. */
  predicate Chained(calls: seq<Call>)
  {
    forall i | 0 <= i < |calls| - 1 :: Top(calls[i]) < Pre(calls[i + 1])
  }

  /** Running calls in checkpoint order logs strictly increasing progress,
      starting at the first call's checkpoint and ending at 100 unless a
      call fails. */
  lemma {:induction false} CallLogIncreasing(calls: seq<Call>, runs: Runs)
    requires Chained(calls)
    ensures Increasing(CallLog(calls, runs))
    ensures CallLog(calls, runs)[0] == if calls == [] then 100 else Pre(calls[0])
    ensures Failure(calls, runs).None? <==> CallLog(calls, runs)[|CallLog(calls, runs)| - 1] == 100
  {
    if calls != [] {
      var c := calls[0];
      ChainedTail(calls);
      CallLogIncreasing(calls[1..], runs);
      CallLogStep(calls, runs);
      if OutcomeOf(c, runs).ToolOk? {
        CheckpointsIncreasing(c);
        JoinIncreasing([Pre(c)] + Post(c), CallLog(calls[1..], runs));
      }
    }
  }

  /** One call's checkpoints rise, and the last of them is its top. */
  lemma CheckpointsIncreasing(c: Call)
    ensures var head := [Pre(c)] + Post(c); Increasing(head) && head[|head| - 1] == Top(c)
  {
  }

  /** Running a non-empty list of calls: the first call's checkpoints, then
      the rest's when it succeeds. */
  lemma CallLogStep(calls: seq<Call>, runs: Runs)
    requires calls != []
    ensures OutcomeOf(calls[0], runs).ToolOk? ==>
      CallLog(calls, runs) == [Pre(calls[0])] + Post(calls[0]) + CallLog(calls[1..], runs) &&
      Failure(calls, runs) == Failure(calls[1..], runs)
    ensures OutcomeOf(calls[0], runs).ToolFail? ==>
      CallLog(calls, runs) == [Pre(calls[0])] && Failure(calls, runs) == Some(calls[0])
  {
  }

  /** The calls after the first are still in order, and come after it. */
  lemma ChainedTail(calls: seq<Call>)
    requires calls != [] && Chained(calls)
    ensures Chained(calls[1..])
    ensures calls[1..] != [] ==> Top(calls[0]) < Pre(calls[1..][0])
  {
    forall i | 0 <= i < |calls[1..]| - 1 ensures Top(calls[1..][i]) < Pre(calls[1..][i + 1]) {
      assert calls[1..][i] == calls[i + 1] && calls[1..][i + 1] == calls[i + 2];
    }
  }

  /** Two increasing runs joined where the first ends below the second's
      start. */
  lemma JoinIncreasing(a: seq<nat>, b: seq<nat>)
    requires a != [] && b != [] && Increasing(a) && Increasing(b) && a[|a| - 1] < b[0]
    ensures Increasing(a + b) && (a + b)[|a + b| - 1] == b[|b| - 1]
  {
    var s := a + b;
    forall i, j | 0 <= i < j < |s| ensures s[i] < s[j] {
      if i < |a| && j >= |a| {
        assert s[i] <= a[|a| - 1] && b[0] <= s[j];
      }
    }
  }

  /** The calls of every request run in checkpoint order. */
  lemma CallsChained(req: Request)
    ensures Chained(Calls(req))
  {
    var calls := Calls(req);
    forall i | 0 <= i < |calls| - 1 ensures Top(calls[i]) < Pre(calls[i + 1]) {
      if i >= 2 {
        assert Top(calls[i]) < 97 && Pre(calls[i + 1]) >= 80;
      }
    }
  }

  /** Progress only grows during a reconstruction task; it ends at 100
      exactly when no command fails. */
  lemma ReconstructionProgressIncreases(req: Request, runs: Runs)
    ensures Increasing(CallLog(Calls(req), runs))
    ensures CallLog(Calls(req), runs)[0] == 35
    ensures Failure(Calls(req), runs).None? <==> CallLog(Calls(req), runs)[|CallLog(Calls(req), runs)| - 1] == 100
  {
    CallsChained(req);
    CallLogIncreasing(Calls(req), runs);
  }

  /** Dense and mesh commands are among the calls exactly when asked for. */
  lemma CallsFollowFlags(req: Request)
    ensures (UndistortCall in Calls(req)) == req.dense && (StereoCall in Calls(req)) == req.dense
    ensures (FusionCall in Calls(req)) == req.dense && (MeshCall in Calls(req)) == req.meshing
    ensures Calls(req)[..3] == [FeatureCall, MatchCall, MapperCall]
  {
    CallsTail(req);
    assert Calls(req) == [FeatureCall, MatchCall, MapperCall] + Calls(req)[3..];
  }

  /** The commands run are those of the calls, in order. */
  lemma {:induction false} IssuedInOrder(calls: seq<Call>, runs: Runs, l: Layout, p: Params)
    ensures |Issued(calls, runs, l, p)| <= |calls|
    ensures forall i | 0 <= i < |Issued(calls, runs, l, p)| :: Issued(calls, runs, l, p)[i] == Command(calls[i], l, p)
  {
    if calls != [] && OutcomeOf(calls[0], runs).ToolOk? {
      IssuedInOrder(calls[1..], runs, l, p);
      assert Issued(calls, runs, l, p) == [Command(calls[0], l, p)] + Issued(calls[1..], runs, l, p);
    }
  }

  /** The commands stop at the first that fails, and run out the calls
      when none fails. */
  lemma {:induction false} IssuedStopsAtFailure(calls: seq<Call>, runs: Runs, l: Layout, p: Params)
    ensures Failure(calls, runs).None? ==> |Issued(calls, runs, l, p)| == |calls|
    ensures Failure(calls, runs).Some? ==> var n := |Issued(calls, runs, l, p)|;
      0 < n <= |calls| && calls[n - 1] == Failure(calls, runs).value &&
      forall i | 0 <= i < n - 1 :: OutcomeOf(calls[i], runs).ToolOk?
  {
    if calls != [] && OutcomeOf(calls[0], runs).ToolOk? {
      IssuedStopsAtFailure(calls[1..], runs, l, p);
      assert |Issued(calls, runs, l, p)| == 1 + |Issued(calls[1..], runs, l, p)|;
      assert Failure(calls, runs) == Failure(calls[1..], runs);
      forall i | 1 <= i < |calls| ensures calls[1..][i - 1] == calls[i] {
      }
    }
  }
}
