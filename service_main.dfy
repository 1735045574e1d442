/** The reconstruction microservice's HTTP layer: the upload and download
    checks, the in-memory job map with its poll and cancel rules, and the
    two background tasks that move a job through its progress checkpoints. */
module ServiceMain {
  import opened Wrappers
  import opened Text
  import opened Json

  const UploadDir := "uploads"
  const OutputDir := "outputs"

  // ---------------------------------------------------------------------
  // Uploads

  /** The upload filter: the lower-cased file name ends in one of the four
      video suffixes. */
  predicate AcceptedVideo(filename: string)
  {
    var f := Lower(filename);
    EndsWith(f, ".mp4") || EndsWith(f, ".avi") || EndsWith(f, ".mov") || EndsWith(f, ".mkv")
  }

  datatype Receipt = Receipt(projectId: string, filename: string, size: nat, path: string)

  /** What FastAPI answers for an exception the endpoint does not catch. */
  const ServerError := "Internal Server Error"

  /** `upload_video`: refuse other file types with 400, make the project's
      upload directory (outside the `try`, so a failure there is a bare
      500), store the file at `project_dir / filename`, and turn a failed
      write into 500. `mkdirError` is what making the directory raised, if
      anything; `written` is what writing the file gave: its size, or the
      error. */
  function UploadVideo(projectId: string, filename: string, mkdirError: Option<string>, written: Result<nat>)
    : (r: Reply<Receipt>)
    ensures r.Reply? <==> AcceptedVideo(filename) && mkdirError.None? && written.Ok?
    ensures !AcceptedVideo(filename) ==> r.Refused? && r.status == 400
    ensures AcceptedVideo(filename) && mkdirError.Some? ==> r == Refused(500, ServerError)
    ensures AcceptedVideo(filename) && mkdirError.None? && written.Err? ==>
      r == Refused(500, "Error uploading video: " + written.error.message)
    ensures r.Reply? ==> r.body.size == written.value && r.body.filename == filename
    ensures r.Reply? && !StartsWith(filename, "/") ==> r.body.path == Child(Child(UploadDir, projectId), filename)
    ensures r.Reply? && StartsWith(filename, "/") ==> r.body.path == filename
  {
    if !AcceptedVideo(filename) then Refused(400, "Invalid file type. Only MP4, AVI, MOV, MKV are supported.")
    else if mkdirError.Some? then Refused(500, ServerError)
    else if written.Err? then Refused(500, "Error uploading video: " + written.error.message)
    else Reply(Receipt(projectId, filename, written.value, PathJoin(Child(UploadDir, projectId), filename)))
  }

  lemma {:induction false} LowerTwice(s: string)
    ensures Lower(Lower(s)) == Lower(s)
  {
    forall i | 0 <= i < |s|
      ensures Lower(Lower(s))[i] == Lower(s)[i]
    {
    }
  }

  /** The check ignores letter case: a name is accepted exactly when its
      lower-cased form is. */
  lemma AcceptedIgnoresCase(filename: string)
    ensures AcceptedVideo(filename) <==> AcceptedVideo(Lower(filename))
  {
    LowerTwice(filename);
  }

  /** The check looks at the suffix only: an upper-case suffix passes, a
      suffix followed by more text does not, and a bare hidden name such as
      ".mp4" passes. */
  lemma AcceptedExamples()
    ensures AcceptedVideo("clip.MOV")
    ensures AcceptedVideo(".mp4")
    ensures !AcceptedVideo("clip.mp4.txt")
    ensures !AcceptedVideo("mp4")
  {
    assert Lower("clip.MOV") == "clip.mov";
    assert Lower(".mp4") == ".mp4";
    assert Lower("clip.mp4.txt") == "clip.mp4.txt";
    assert Lower("mp4") == "mp4";
  }

  // ---------------------------------------------------------------------
  // Downloads

  /** `file_mapping` of `download_file`. */
  function DownloadName(fileType: string): (n: Option<string>)
    ensures n.Some? <==> fileType in {"model", "dense", "sparse", "mesh", "textured"}
  {
    if fileType == "model" then Some("model.ply")
    else if fileType == "dense" then Some("dense_reconstruction.ply")
    else if fileType == "sparse" then Some("sparse_reconstruction.ply")
    else if fileType == "mesh" then Some("mesh.ply")
    else if fileType == "textured" then Some("textured_mesh.obj")
    else None
  }

  /** `download_file`: an unknown type is 400, a missing file 404, otherwise
      the file under the project's output directory, served under its own
      name. `existing` holds the paths that exist. */
  function DownloadFile(projectId: string, fileType: string, existing: set<string>): (r: Reply<(string, string)>)
    ensures DownloadName(fileType).None? ==> r == Refused(400, "Invalid file type")
    ensures DownloadName(fileType).Some? ==>
      var path := Child(Child(OutputDir, projectId), DownloadName(fileType).value);
      (path in existing ==> r == Reply((path, DownloadName(fileType).value))) &&
      (path !in existing ==> r == Refused(404, "File not found"))
  {
    match DownloadName(fileType)
    case None => Refused(400, "Invalid file type")
    case Some(name) =>
      var path := Child(Child(OutputDir, projectId), name);
      if path in existing then Reply((path, name)) else Refused(404, "File not found")
  }

  /** The five download types name five different files. */
  lemma DownloadNamesDistinct(a: string, b: string)
    requires DownloadName(a).Some? && DownloadName(b).Some? && a != b
    ensures DownloadName(a).value != DownloadName(b).value
  {
  }

  // ---------------------------------------------------------------------
  // Jobs

  datatype Status = Pending | Processing | Completed | Failed | Cancelled

  function StatusName(s: Status): string
  {
    match s
    case Pending => "pending"
    case Processing => "processing"
    case Completed => "completed"
    case Failed => "failed"
    case Cancelled => "cancelled"
  }

  /** The reconstruction steps, in the order the background task runs them. */
  datatype Step = Features | Matching | Sparse | Dense | Meshing | Texturing

  /** The progress value a step sets before it runs. */
  function Checkpoint(s: Step): nat
  {
    match s
    case Features => 10
    case Matching => 30
    case Sparse => 50
    case Dense => 70
    case Meshing => 85
    case Texturing => 95
  }

  function Order(s: Step): nat
  {
    match s
    case Features => 0
    case Matching => 1
    case Sparse => 2
    case Dense => 3
    case Meshing => 4
    case Texturing => 5
  }

  /** Later steps have larger checkpoints. */
  lemma CheckpointsFollowOrder(a: Step, b: Step)
    ensures Order(a) < Order(b) <==> Checkpoint(a) < Checkpoint(b)
  {
  }

  /** The messages a job shows. */
  datatype Message =
    | StartingExtraction | StartingReconstruction
    | ExtractingFrames | RunningFfmpeg | ExtractionCompleted(frames: nat) | ExtractionFailed(reason: string)
    | Initializing | Running(step: Step) | ReconstructionCompleted | ReconstructionFailed(reason: string)
    | CancelledByUser

  function StepText(s: Step): string
  {
    match s
    case Features => "Extracting features..."
    case Matching => "Matching features..."
    case Sparse => "Creating sparse reconstruction..."
    case Dense => "Creating dense reconstruction..."
    case Meshing => "Generating mesh..."
    case Texturing => "Applying textures..."
  }

  function MessageText(m: Message): string
  {
    match m
    case StartingExtraction => "Starting frame extraction..."
    case StartingReconstruction => "Starting COLMAP reconstruction..."
    case ExtractingFrames => "Extracting frames from video..."
    case RunningFfmpeg => "Running ffmpeg frame extraction..."
    case ExtractionCompleted(n) => "Frame extraction completed. " + Decimal(n) + " frames extracted."
    case ExtractionFailed(reason) => "Frame extraction failed: " + reason
    case Initializing => "Initializing COLMAP pipeline..."
    case Running(s) => StepText(s)
    case ReconstructionCompleted => "COLMAP reconstruction completed successfully!"
    case ReconstructionFailed(reason) => "COLMAP reconstruction failed: " + reason
    case CancelledByUser => "Job cancelled by user"
  }

  /** A failed task's message is its task's prefix followed by the error text. */
  lemma FailureMessages(reason: string)
    ensures StartsWith(MessageText(ExtractionFailed(reason)), "Frame extraction failed: ")
    ensures EndsWith(MessageText(ExtractionFailed(reason)), reason)
    ensures StartsWith(MessageText(ReconstructionFailed(reason)), "COLMAP reconstruction failed: ")
    ensures EndsWith(MessageText(ReconstructionFailed(reason)), reason)
  {
  }

  /** What a status poll shows of a job. */
  datatype JobView = JobView(status: Status, progress: nat, message: Message, results: Option<seq<Member>>)

  /** One `JobStatus` entry; the background tasks and `cancel_job` update it in place. */
  class Job {
    const id: string
    var status: Status
    var progress: nat
    var message: Message
    var results: Option<seq<Member>>
    /** Every value progress was set to, in order. */
    ghost var progressLog: seq<nat>

    constructor (id: string, message: Message)
      ensures this.id == id && status == Pending && progress == 0 && this.message == message
      ensures results == None && progressLog == []
    {
      this.id := id;
      status, progress, this.message, results := Pending, 0, message, None;
      progressLog := [];
    }

    function View(): JobView
      reads this
    {
      JobView(status, progress, message, results)
    }

    /** `cancel_job` on a known job: only a processing job is cancelled. */
    method Cancel()
      modifies this
      ensures old(status) == Processing ==> status == Cancelled && message == CancelledByUser
      ensures old(status) != Processing ==> status == old(status) && message == old(message)
      ensures progress == old(progress) && results == old(results) && progressLog == old(progressLog)
    {
      if status == Processing {
        status, message := Cancelled, CancelledByUser;
      }
    }
  }

  /** Distinct elements: as many as the sequence is long. */
  lemma {:induction false} DistinctCount(s: seq<string>)
    requires forall i, j | 0 <= i < j < |s| :: s[i] != s[j]
    ensures |set x | x in s| == |s|
  {
    if s != [] {
      DistinctCount(s[1..]);
      assert (set x | x in s) == (set x | x in s[1..]) + {s[0]};
      assert s[0] !in s[1..];
    }
  }

  /** The `jobs` dictionary, with its keys in insertion order (the order
      `list_jobs` reports them in). */
  class JobStore {
    var jobs: map<string, Job>
    var order: seq<string>

    ghost predicate Valid()
      reads this
    {
      (forall id :: id in jobs <==> id in order) &&
      (forall i, j | 0 <= i < j < |order| :: order[i] != order[j])
    }

    constructor ()
      ensures Valid() && jobs == map[] && order == []
    {
      jobs, order := map[], [];
    }

    /** `jobs[job_id] = JobStatus(...)`: a fresh pending entry. A key already
        present keeps its place in the order and loses its old entry. */
    method Create(jobId: string, message: Message) returns (job: Job)
      requires Valid()
      modifies this
      ensures Valid() && fresh(job)
      ensures jobs == old(jobs)[jobId := job]
      ensures order == if jobId in old(jobs) then old(order) else old(order) + [jobId]
      ensures job.id == jobId && job.View() == JobView(Pending, 0, message, None) && job.progressLog == []
    {
      job := new Job(jobId, message);
      if jobId !in jobs {
        order := order + [jobId];
      }
      jobs := jobs[jobId := job];
    }

    /** `extract_frames`: queue a frame-extraction job under a new id. */
    method ExtractFrames(jobId: string) returns (reply: seq<Member>, job: Job)
      requires Valid()
      modifies this
      ensures Valid() && fresh(job) && jobs == old(jobs)[jobId := job]
      ensures order == if jobId in old(jobs) then old(order) else old(order) + [jobId]
      ensures job.View() == JobView(Pending, 0, StartingExtraction, None) && job.progressLog == []
      ensures reply == Started(jobId, "Frame extraction started")
    {
      job := Create(jobId, StartingExtraction);
      reply := Started(jobId, "Frame extraction started");
    }

    /** `start_reconstruction`: queue a reconstruction job under a new id. */
    method StartReconstruction(jobId: string) returns (reply: seq<Member>, job: Job)
      requires Valid()
      modifies this
      ensures Valid() && fresh(job) && jobs == old(jobs)[jobId := job]
      ensures order == if jobId in old(jobs) then old(order) else old(order) + [jobId]
      ensures job.View() == JobView(Pending, 0, StartingReconstruction, None) && job.progressLog == []
      ensures reply == Started(jobId, "COLMAP reconstruction started")
    {
      job := Create(jobId, StartingReconstruction);
      reply := Started(jobId, "COLMAP reconstruction started");
    }

    /** `get_job_status`: the entry, or 404. */
    function GetJobStatus(jobId: string): (r: Reply<Job>)
      reads this
      ensures r.Reply? <==> jobId in jobs
      ensures r.Reply? ==> r.body == jobs[jobId]
      ensures r.Refused? ==> r == Refused(404, "Job not found")
    {
      if jobId in jobs then Reply(jobs[jobId]) else Refused(404, "Job not found")
    }

    /** `list_jobs`: every entry once, in insertion order. */
    function ListJobs(): (r: seq<Job>)
      requires Valid()
      reads this
      ensures |r| == |jobs|
      ensures forall id | id in jobs :: jobs[id] in r
      ensures |r| == |order| && forall i | 0 <= i < |order| :: r[i] == jobs[order[i]]
    {
      DistinctCount(order);
      assert jobs.Keys == set x | x in order;
      ListedAll(order, jobs);
      Listed(order, jobs)
    }

    /** `cancel_job`: 404 for an unknown id; otherwise the job is cancelled
        if it is processing, and the reply says "Job cancelled" either way. */
    method CancelJob(jobId: string) returns (r: Reply<seq<Member>>)
      requires Valid()
      modifies if jobId in jobs then {jobs[jobId]} else {}
      ensures r.Refused? <==> jobId !in old(jobs)
      ensures r.Refused? ==> r == Refused(404, "Job not found")
      ensures r.Reply? ==> r.body == [Member("message", JStr("Job cancelled")), Member("job_id", JStr(jobId))]
      ensures jobId in jobs ==>
        var job := jobs[jobId];
        job.status == (if old(job.status) == Processing then Cancelled else old(job.status)) &&
        job.message == (if old(job.status) == Processing then CancelledByUser else old(job.message)) &&
        job.progress == old(job.progress) && job.results == old(job.results)
    {
      if jobId !in jobs {
        return Refused(404, "Job not found");
      }
      jobs[jobId].Cancel();
      r := Reply([Member("message", JStr("Job cancelled")), Member("job_id", JStr(jobId))]);
    }
  }

  /** The entries of `m` in the order `o` names their keys. */
  function Listed(o: seq<string>, m: map<string, Job>): (r: seq<Job>)
    requires forall x | x in o :: x in m
    ensures |r| == |o| && forall i | 0 <= i < |o| :: r[i] == m[o[i]]
  {
    seq(|o|, i requires 0 <= i < |o| => m[o[i]])
  }

  lemma ListedAll(o: seq<string>, m: map<string, Job>)
    requires forall x :: x in m <==> x in o
    ensures forall x | x in m :: m[x] in Listed(o, m)
  {
    forall x | x in m
      ensures m[x] in Listed(o, m)
    {
      var i :| 0 <= i < |o| && o[i] == x;
      assert Listed(o, m)[i] == m[x];
    }
  }

  /** The reply of the two endpoints that queue a job. */
  function Started(jobId: string, message: string): seq<Member>
  {
    [Member("job_id", JStr(jobId)), Member("message", JStr(message)), Member("status", JStr("pending"))]
  }

  // ---------------------------------------------------------------------
  // Frame extraction

  /** The project's videos in the order the background task looks for them: every
      `*.mp4`, then `*.avi`, `*.mov` and `*.mkv`, each in directory order. */
  function VideoFiles(listing: seq<string>): (r: seq<string>)
    ensures forall v | v in r :: v in listing && (EndsWith(v, ".mp4") || EndsWith(v, ".avi") || EndsWith(v, ".mov") || EndsWith(v, ".mkv"))
    ensures forall v | v in listing && (EndsWith(v, ".mp4") || EndsWith(v, ".avi") || EndsWith(v, ".mov") || EndsWith(v, ".mkv")) :: v in r
  {
    GlobMatches(listing, ".mp4") + GlobMatches(listing, ".avi") + GlobMatches(listing, ".mov") + GlobMatches(listing, ".mkv")
  }

  /** An `.mp4` is always chosen over the other kinds. */
  lemma Mp4First(listing: seq<string>, v: string)
    requires v in listing && Globbed(v, ".mp4")
    ensures VideoFiles(listing) != [] && Globbed(VideoFiles(listing)[0], ".mp4")
  {
    var m := GlobMatches(listing, ".mp4");
    assert v in m;
    assert VideoFiles(listing)[0] == m[0];
    assert m[0] in m;
  }

  /** `str(int)`. */
  function IntText(n: int): string
  {
    if n < 0 then "-" + Decimal(-n) else Decimal(n)
  }

  function ImagesDir(projectId: string): string
  {
    Child(Child(UploadDir, projectId), "images")
  }

  /** The ffmpeg command for the first video found. */
  function FfmpegCommand(projectId: string, video: string, frameRate: int): seq<string>
  {
    ["ffmpeg", "-i", Child(Child(UploadDir, projectId), video), "-vf", "fps=" + IntText(frameRate),
     "-q:v", "2", Child(ImagesDir(projectId), "frame_%04d.jpg")]
  }

  function ExtractionResults(projectId: string, frames: nat): seq<Member>
  {
    [Member("frames_extracted", JInt(frames)), Member("images_directory", JStr(ImagesDir(projectId)))]
  }

  /** What `process_frame_extraction` leaves in the job: a failing
      `images_dir.mkdir` (`mkdirError`, as when `uploads/<project>` does
      not exist) and a missing video fail before the checkpoint, a failing
      ffmpeg fails at 25, and success sets 100 with the frame count. A
      failure keeps the job's results. */
  function FrameExtraction(v: JobView, projectId: string, mkdirError: Option<string>, listing: seq<string>,
                           ffmpeg: ToolOutcome, images: set<string>): (r: JobView)
    ensures r.status in {Completed, Failed}
    ensures r.status == Failed ==> r.results == v.results && r.message.ExtractionFailed?
    ensures r.status == Completed ==>
      r.progress == 100 && r.results == Some(ExtractionResults(projectId, |JpgFiles(images)|))
  {
    if mkdirError.Some? then JobView(Failed, v.progress, ExtractionFailed(mkdirError.value), v.results)
    else if VideoFiles(listing) == [] then JobView(Failed, v.progress, ExtractionFailed("No video file found"), v.results)
    else if ffmpeg.ToolFail? then JobView(Failed, 25, ExtractionFailed("FFmpeg failed: " + ffmpeg.stderr), v.results)
    else JobView(Completed, 100, ExtractionCompleted(|JpgFiles(images)|),
                 Some(ExtractionResults(projectId, |JpgFiles(images)|)))
  }

  /** The progress values the extraction task sets. */
  function ExtractionProgress(mkdirError: Option<string>, listing: seq<string>, ffmpeg: ToolOutcome): seq<nat>
  {
    if mkdirError.Some? || VideoFiles(listing) == [] then [] else if ffmpeg.ToolFail? then [25] else [25, 100]
  }

  /** The background task `process_frame_extraction`. The error text of
      `images_dir.mkdir`, the directory listing, ffmpeg's outcome and the
      images directory afterwards are inputs; the answer is the ffmpeg
      command, when one was run. */
  method ProcessFrameExtraction(job: Job, projectId: string, frameRate: int, mkdirError: Option<string>,
                                listing: seq<string>, ffmpeg: ToolOutcome, images: set<string>)
    returns (cmd: Option<seq<string>>)
    modifies job
    ensures job.View() == FrameExtraction(old(job.View()), projectId, mkdirError, listing, ffmpeg, images)
    ensures job.progressLog == old(job.progressLog) + ExtractionProgress(mkdirError, listing, ffmpeg)
    ensures cmd == if mkdirError.Some? || VideoFiles(listing) == [] then None
                   else Some(FfmpegCommand(projectId, VideoFiles(listing)[0], frameRate))
  {
    job.status, job.message := Processing, ExtractingFrames;
    if mkdirError.Some? {
      job.status, job.message := Failed, ExtractionFailed(mkdirError.value);
      return None;
    }
    var videos := VideoFiles(listing);
    if videos == [] {
      job.status, job.message := Failed, ExtractionFailed("No video file found");
      return None;
    }
    cmd := Some(FfmpegCommand(projectId, videos[0], frameRate));
    job.progress, job.message := 25, RunningFfmpeg;
    job.progressLog := job.progressLog + [25];
    if ffmpeg.ToolFail? {
      job.status, job.message := Failed, ExtractionFailed("FFmpeg failed: " + ffmpeg.stderr);
      return;
    }
    var frames := |JpgFiles(images)|;
    job.status, job.progress, job.message := Completed, 100, ExtractionCompleted(frames);
    job.results := Some(ExtractionResults(projectId, frames));
    job.progressLog := job.progressLog + [100];
  }

  /** Extraction completes exactly when the images directory can be made,
      a video exists and ffmpeg succeeds; it then reports every `*.jpg` in
      the images directory. Otherwise the job fails and keeps its results,
      and a failing `mkdir` is reported with its own error text. */
  lemma ExtractionOutcome(v: JobView, projectId: string, mkdirError: Option<string>, listing: seq<string>,
                          ffmpeg: ToolOutcome, images: set<string>)
    ensures var w := FrameExtraction(v, projectId, mkdirError, listing, ffmpeg, images);
      (w.status == Completed <==> mkdirError.None? && VideoFiles(listing) != [] && ffmpeg.ToolOk?) &&
      (mkdirError.Some? ==> w.message == ExtractionFailed(mkdirError.value)) &&
      (w.status != Completed ==> w.status == Failed && w.results == v.results) &&
      (w.status == Completed ==> w.progress == 100 && w.message == ExtractionCompleted(|JpgFiles(images)|))
  {
  }

  // ---------------------------------------------------------------------
  // Reconstruction

  datatype Request = Request(projectId: string, quality: string, maxImageSize: Option<int>,
                             maxNumFeatures: Option<int>, dense: bool, meshing: bool, texturing: bool)

  datatype Settings = Settings(maxImageSize: int, maxNumFeatures: int)

  /** `quality_settings`. */
  function QualitySettings(): map<string, Settings>
  {
    map["low" := Settings(800, 4000), "medium" := Settings(1200, 8000),
        "high" := Settings(1600, 12000), "extreme" := Settings(2400, 20000)]
  }

  /** Python's `x or default` for an optional integer: None and 0 are false. */
  function OrElse(x: Option<int>, default: int): int
  {
    if x.Some? && x.value != 0 then x.value else default
  }

  /** The pipeline settings a request resolves to: its tier's, medium for an
      unknown tier, each replaced by the request's own value when truthy. */
  function SettingsFor(req: Request): (r: Settings)
    ensures r.maxImageSize != 0 && r.maxNumFeatures != 0
    ensures r.maxImageSize in {800, 1200, 1600, 2400} || Some(r.maxImageSize) == req.maxImageSize
    ensures r.maxNumFeatures in {4000, 8000, 12000, 20000} || Some(r.maxNumFeatures) == req.maxNumFeatures
  {
    var tier := if req.quality in QualitySettings() then QualitySettings()[req.quality]
                else QualitySettings()["medium"];
    Settings(OrElse(req.maxImageSize, tier.maxImageSize), OrElse(req.maxNumFeatures, tier.maxNumFeatures))
  }

  lemma SettingsResolution(req: Request)
    ensures req.quality !in {"low", "medium", "high", "extreme"} ==>
      SettingsFor(req) == SettingsFor(req.(quality := "medium"))
    ensures req.maxImageSize.Some? && req.maxImageSize.value != 0 ==>
      SettingsFor(req).maxImageSize == req.maxImageSize.value
    ensures req.maxNumFeatures.Some? && req.maxNumFeatures.value != 0 ==>
      SettingsFor(req).maxNumFeatures == req.maxNumFeatures.value
    ensures req.maxImageSize in {None, Some(0)} && req.quality == "high" ==> SettingsFor(req).maxImageSize == 1600
  {
  }

  /** What each step raised, if anything. */
  datatype StepRuns = StepRuns(features: Option<string>, matching: Option<string>, sparse: Option<string>,
                               dense: Option<string>, meshing: Option<string>, texturing: Option<string>)

  function Outcome(s: Step, runs: StepRuns): Option<string>
  {
    match s
    case Features => runs.features
    case Matching => runs.matching
    case Sparse => runs.sparse
    case Dense => runs.dense
    case Meshing => runs.meshing
    case Texturing => runs.texturing
  }

  /** The three required steps always run; each optional one when its flag is set. */
  predicate Enabled(s: Step, req: Request)
  {
    match s
    case Dense => req.dense
    case Meshing => req.meshing
    case Texturing => req.texturing
    case _ => true
  }

  /** The first enabled step that raises. */
  function FailedStep(req: Request, runs: StepRuns): Option<Step>
  {
    if runs.features.Some? then Some(Features)
    else if runs.matching.Some? then Some(Matching)
    else if runs.sparse.Some? then Some(Sparse)
    else if req.dense && runs.dense.Some? then Some(Dense)
    else if req.meshing && runs.meshing.Some? then Some(Meshing)
    else if req.texturing && runs.texturing.Some? then Some(Texturing)
    else None
  }

  /** The failing step is enabled, raised, and every enabled step before it
      succeeded; with no failing step, every enabled step succeeded. */
  lemma FailedStepIsFirst(req: Request, runs: StepRuns)
    ensures var f := FailedStep(req, runs);
      (f.Some? ==> Enabled(f.value, req) && Outcome(f.value, runs).Some? &&
                   forall s | Order(s) < Order(f.value) && Enabled(s, req) :: Outcome(s, runs).None?) &&
      (f.None? ==> forall s | Enabled(s, req) :: Outcome(s, runs).None?)
  {
  }

  /** A step is reached when it is enabled and no earlier step failed. */
  predicate Reached(s: Step, req: Request, runs: StepRuns)
  {
    Enabled(s, req) && (FailedStep(req, runs).None? || Order(s) <= Order(FailedStep(req, runs).value))
  }

  function If(b: bool, x: nat): seq<nat>
  {
    if b then [x] else []
  }

  /** The progress values the three required steps set. */
  function RequiredProgress(req: Request, runs: StepRuns): seq<nat>
  {
    If(Reached(Features, req, runs), 10) + If(Reached(Matching, req, runs), 30) + If(Reached(Sparse, req, runs), 50)
  }

  /** The progress values the optional steps and the completion set. */
  function LaterProgress(req: Request, runs: StepRuns): seq<nat>
  {
    If(Reached(Dense, req, runs), 70) + If(Reached(Meshing, req, runs), 85) + If(Reached(Texturing, req, runs), 95)
    + If(FailedStep(req, runs).None?, 100)
  }

  /** Once the required steps passed, the optional steps log their
      checkpoints up to the failing one, or all of them and then 100. */
  lemma LaterCases(req: Request, runs: StepRuns)
    requires runs.features.None? && runs.matching.None? && runs.sparse.None?
    ensures FailedStep(req, runs) == Some(Dense) ==> LaterProgress(req, runs) == [70]
    ensures FailedStep(req, runs) == Some(Meshing) ==> LaterProgress(req, runs) == If(req.dense, 70) + [85]
    ensures FailedStep(req, runs) == Some(Texturing) ==>
      LaterProgress(req, runs) == If(req.dense, 70) + If(req.meshing, 85) + [95]
    ensures FailedStep(req, runs).None? ==>
      LaterProgress(req, runs) == If(req.dense, 70) + If(req.meshing, 85) + If(req.texturing, 95) + [100]
  {
  }

  /** The progress values a run past the image check sets, in order. */
  function ReconstructionProgress(req: Request, runs: StepRuns): seq<nat>
  {
    RequiredProgress(req, runs) + LaterProgress(req, runs)
  }

  function ResultEntries(key: string, value: string, path: string): seq<Member>
  {
    [Member(key, JStr("completed")), Member(value, JStr(path))]
  }

  function RequiredResults(out: string): seq<Member>
  {
    [Member("sparse_model", JStr(Child(out, "sparse_reconstruction.ply"))),
     Member("feature_extraction", JStr("completed")), Member("feature_matching", JStr("completed")),
     Member("sparse_reconstruction", JStr("completed"))]
  }

  function DenseResults(out: string): seq<Member>
  {
    ResultEntries("dense_reconstruction", "dense_model", Child(out, "dense_reconstruction.ply"))
  }

  function MeshResults(out: string): seq<Member>
  {
    ResultEntries("meshing", "mesh_model", Child(out, "mesh.ply"))
  }

  function TextureResults(out: string): seq<Member>
  {
    ResultEntries("texturing", "textured_model", Child(out, "textured_mesh.obj"))
  }

  /** The `results` of a completed run: the sparse model and the three
      required steps, then two entries per optional step that ran. */
  function ReconstructionResults(req: Request): seq<Member>
  {
    var out := Child(OutputDir, req.projectId);
    RequiredResults(out) + (if req.dense then DenseResults(out) else []) + (if req.meshing then MeshResults(out) else [])
    + (if req.texturing then TextureResults(out) else [])
  }

  const NoImages := "No images found. Please extract frames first."

  /** The image check: the images directory exists and holds a `*.jpg`. */
  predicate HasImages(images: Option<set<string>>)
  {
    images.Some? && JpgFiles(images.value) != {}
  }

  /** What the steps leave in the job: the first failing step's checkpoint
      and error, or 100 and the results. A failure keeps the job's results. */
  function Steps(v: JobView, req: Request, runs: StepRuns): JobView
  {
    match FailedStep(req, runs)
    case Some(s) => JobView(Failed, Checkpoint(s), ReconstructionFailed(Outcome(s, runs).value), v.results)
    case None => JobView(Completed, 100, ReconstructionCompleted, Some(ReconstructionResults(req)))
  }

  /** What a reconstruction leaves in the job when the steps run as
      intended: without images it fails before any step. */
  function Reconstruction(v: JobView, req: Request, images: Option<set<string>>, runs: StepRuns): (r: JobView)
    ensures r.status in {Completed, Failed}
    ensures r.status == Completed <==> HasImages(images) && FailedStep(req, runs).None?
    ensures r.status == Failed ==> r.results == v.results && r.message.ReconstructionFailed?
    ensures r.status == Failed && HasImages(images) ==> r.progress == Checkpoint(FailedStep(req, runs).value)
    ensures r.status == Completed ==> r.progress == 100 && r.results == Some(ReconstructionResults(req))
  {
    if !HasImages(images) then JobView(Failed, v.progress, ReconstructionFailed(NoImages), v.results)
    else Steps(v, req, runs)
  }

  /** One step: set its checkpoint and message, run it, fail the job if it raised. */
  method RunStep(job: Job, s: Step, outcome: Option<string>) returns (ok: bool)
    modifies job
    ensures ok <==> outcome.None?
    ensures job.progress == Checkpoint(s) && job.progressLog == old(job.progressLog) + [Checkpoint(s)]
    ensures job.status == (if ok then old(job.status) else Failed)
    ensures job.message == (if ok then Running(s) else ReconstructionFailed(outcome.value))
    ensures job.results == old(job.results)
  {
    job.progress, job.message := Checkpoint(s), Running(s);
    job.progressLog := job.progressLog + [Checkpoint(s)];
    if outcome.Some? {
      job.status, job.message := Failed, ReconstructionFailed(outcome.value);
      return false;
    }
    ok := true;
  }

  /** The three required steps. Past them, the job still reads as before
      apart from the progress and message of the last step. */
  method RequiredSteps(job: Job, req: Request, runs: StepRuns) returns (ok: bool)
    modifies job
    ensures ok <==> runs.features.None? && runs.matching.None? && runs.sparse.None?
    ensures job.progressLog == old(job.progressLog) + RequiredProgress(req, runs)
    ensures !ok ==> job.View() == Steps(old(job.View()), req, runs) && LaterProgress(req, runs) == []
    ensures ok ==> job.status == old(job.status) && job.results == old(job.results)
  {
    ghost var before := job.progressLog;
    ok := RunStep(job, Features, runs.features);
    if !ok {
      return;
    }
    ok := RunStep(job, Matching, runs.matching);
    if !ok {
      assert job.progressLog == before + [10] + [30];
      return;
    }
    ok := RunStep(job, Sparse, runs.sparse);
    assert job.progressLog == before + [10] + [30] + [50];
  }

  /** The optional steps and the completion, once the required steps passed. */
  method LaterSteps(job: Job, req: Request, runs: StepRuns)
    requires runs.features.None? && runs.matching.None? && runs.sparse.None?
    modifies job
    ensures job.View() == Steps(old(job.View()), req, runs)
    ensures job.progressLog == old(job.progressLog) + LaterProgress(req, runs)
  {
    LaterCases(req, runs);
    ghost var before := job.progressLog;
    var out := Child(OutputDir, req.projectId);
    var results := RequiredResults(out);
    var ok;
    if req.dense {
      ok := RunStep(job, Dense, runs.dense);
      if !ok {
        return;
      }
      results := results + DenseResults(out);
    }
    assert results == RequiredResults(out) + (if req.dense then DenseResults(out) else []);
    ghost var logged := If(req.dense, 70);
    assert job.progressLog == before + logged;
    if req.meshing {
      ok := RunStep(job, Meshing, runs.meshing);
      LogExtends(before, logged, [85]);
      if !ok {
        return;
      }
      results := results + MeshResults(out);
    }
    assert results == RequiredResults(out) + (if req.dense then DenseResults(out) else [])
                      + (if req.meshing then MeshResults(out) else []);
    logged := logged + If(req.meshing, 85);
    assert job.progressLog == before + logged;
    if req.texturing {
      ok := RunStep(job, Texturing, runs.texturing);
      LogExtends(before, logged, [95]);
      if !ok {
        return;
      }
      results := results + TextureResults(out);
    }
    logged := logged + If(req.texturing, 95);
    assert job.progressLog == before + logged;
    assert results == ReconstructionResults(req);
    assert FailedStep(req, runs).None?;
    job.status, job.progress, job.message, job.results := Completed, 100, ReconstructionCompleted, Some(results);
    job.progressLog := job.progressLog + [100];
    LogExtends(before, logged, [100]);
  }

  /** `process_colmap_reconstruction` with the pipeline it evidently meant to
      drive. COLMAPPipeline has no public step methods (only
      `run_full_pipeline` and the private async `_extract_features`,
      `_match_features` and so on), so each step's outcome is an input that
      stands for whether that step's COLMAP run raised, and with what text. The answer is the settings the
      pipeline was configured with, once the image check passed. */
  method ProcessReconstruction(job: Job, req: Request, images: Option<set<string>>, runs: StepRuns)
    returns (settings: Option<Settings>)
    modifies job
    ensures job.View() == Reconstruction(old(job.View()), req, images, runs)
    ensures HasImages(images) ==> job.progressLog == old(job.progressLog) + ReconstructionProgress(req, runs)
    ensures !HasImages(images) ==> job.progressLog == old(job.progressLog)
    ensures settings == if HasImages(images) then Some(SettingsFor(req)) else None
  {
    job.status, job.message := Processing, Initializing;
    if !HasImages(images) {
      job.status, job.message := Failed, ReconstructionFailed(NoImages);
      return None;
    }
    settings := Some(SettingsFor(req));
    ghost var before := job.progressLog;
    var ok := RequiredSteps(job, req, runs);
    if !ok {
      return;
    }
    LaterSteps(job, req, runs);
    LogExtends(before, RequiredProgress(req, runs), LaterProgress(req, runs));
  }

  lemma LogExtends(before: seq<nat>, logged: seq<nat>, more: seq<nat>)
    ensures before + logged + more == before + (logged + more)
  {
  }

  /** The message of the TypeError the constructor call raises: the pipeline
      class takes no `images_path` or `output_path` arguments. */
  const ConstructorRejected := "COLMAPPipeline.__init__() got an unexpected keyword argument 'images_path'"

  /** What `process_colmap_reconstruction` as written leaves in the job. */
  function ReconstructionAsWritten(v: JobView, images: Option<set<string>>): (r: JobView)
    ensures r.status == Failed && r.progress == v.progress && r.results == v.results
    ensures r.message == ReconstructionFailed(ConstructorRejected) <==> HasImages(images)
  {
    JobView(Failed, v.progress, ReconstructionFailed(if HasImages(images) then ConstructorRejected else NoImages),
            v.results)
  }

  /** `process_colmap_reconstruction` as written: past the image check, the
      pipeline constructor raises, so no step runs and no progress is set. */
  method ProcessReconstructionAsWritten(job: Job, req: Request, images: Option<set<string>>)
    modifies job
    ensures job.View() == ReconstructionAsWritten(old(job.View()), images)
    ensures job.progressLog == old(job.progressLog)
  {
    job.status, job.message := Processing, Initializing;
    if !HasImages(images) {
      job.status, job.message := Failed, ReconstructionFailed(NoImages);
      return;
    }
    job.status, job.message := Failed, ReconstructionFailed(ConstructorRejected);
  }

  /** The message of the AttributeError the first step call would raise
      once the constructor call is fixed: the class has no public
      `extract_features`. */
  const StepMissing := "'COLMAPPipeline' object has no attribute 'extract_features'"

  /** As written, a reconstruction job never completes: with images and
      every step succeeding, the intended run completes and the written one
      fails with the constructor's TypeError. With the constructor fixed, the
      first step call still raises AttributeError, failing the job at the
      first checkpoint. */
  lemma ReconstructionNeverCompletesAsWritten(v: JobView, req: Request, images: set<string>, runs: StepRuns)
    requires JpgFiles(images) != {}
    requires runs == StepRuns(None, None, None, None, None, None)
    ensures ReconstructionAsWritten(v, Some(images)).status == Failed
    ensures ReconstructionAsWritten(v, Some(images)).message == ReconstructionFailed(ConstructorRejected)
    ensures Reconstruction(v, req, Some(images), runs).status == Completed
    ensures var w := Reconstruction(v, req, Some(images), runs.(features := Some(StepMissing)));
      w.status == Failed && w.progress == 10 && w.message == ReconstructionFailed(StepMissing)
  {
  }

  /** Every value is below the bound. */
  predicate Below(s: seq<nat>, bound: nat)
  {
    forall i | 0 <= i < |s| :: s[i] < bound
  }

  lemma AppendIf(s: seq<nat>, b: bool, x: nat, next: nat)
    requires Increasing(s) && Below(s, x) && x < next
    ensures Increasing(s + If(b, x)) && Below(s + If(b, x), next)
  {
  }

  /** The checkpoints of the three required steps come in increasing order. */
  lemma RequiredIncreasing(f: bool, m: bool, s: bool)
    ensures Increasing(If(f, 10) + If(m, 30) + If(s, 50)) && Below(If(f, 10) + If(m, 30) + If(s, 50), 70)
  {
    AppendIf([], f, 10, 30);
    AppendIf(If(f, 10), m, 30, 50);
    AppendIf(If(f, 10) + If(m, 30), s, 50, 70);
  }

  /** Whichever checkpoints are reached, they are reached in increasing order. */
  lemma CheckpointsIncreasing(f: bool, m: bool, s: bool, d: bool, h: bool, t: bool, c: bool)
    ensures Increasing(If(f, 10) + If(m, 30) + If(s, 50) + If(d, 70) + If(h, 85) + If(t, 95) + If(c, 100))
  {
    var a := If(f, 10) + If(m, 30) + If(s, 50);
    RequiredIncreasing(f, m, s);
    AppendIf(a, d, 70, 85);
    AppendIf(a + If(d, 70), h, 85, 95);
    AppendIf(a + If(d, 70) + If(h, 85), t, 95, 100);
    AppendIf(a + If(d, 70) + If(h, 85) + If(t, 95), c, 100, 101);
  }

  /** Progress only grows during a run, and a completed run ends at 100. */
  lemma {:induction false} ProgressIncreases(req: Request, runs: StepRuns)
    ensures Increasing(ReconstructionProgress(req, runs))
    ensures FailedStep(req, runs).None? ==> ReconstructionProgress(req, runs)[|ReconstructionProgress(req, runs)| - 1] == 100
  {
    var s3 := RequiredProgress(req, runs);
    var d := If(Reached(Dense, req, runs), 70);
    var m := If(Reached(Meshing, req, runs), 85);
    var t := If(Reached(Texturing, req, runs), 95);
    var c := If(FailedStep(req, runs).None?, 100);
    CheckpointsIncreasing(Reached(Features, req, runs), Reached(Matching, req, runs), Reached(Sparse, req, runs),
                          Reached(Dense, req, runs), Reached(Meshing, req, runs), Reached(Texturing, req, runs),
                          FailedStep(req, runs).None?);
    assert ReconstructionProgress(req, runs) == s3 + d + m + t + c by {
      assert LaterProgress(req, runs) == d + m + t + c;
      Regroup(s3, d, m, t, c);
    }
  }

  lemma Regroup(a: seq<nat>, d: seq<nat>, m: seq<nat>, t: seq<nat>, c: seq<nat>)
    ensures a + (d + m + t + c) == a + d + m + t + c
  {
  }

  /** A failed run stops at its failing step's checkpoint, the last value it
      logged, and keeps the job's results. */
  lemma FailureStopsAtCheckpoint(v: JobView, req: Request, images: set<string>, runs: StepRuns)
    requires JpgFiles(images) != {} && FailedStep(req, runs).Some?
    ensures var w := Reconstruction(v, req, Some(images), runs);
      var log := ReconstructionProgress(req, runs);
      w.status == Failed && w.results == v.results && log != [] && w.progress == log[|log| - 1]
  {
  }

  function Keys(members: seq<Member>): seq<string>
  {
    seq(|members|, i requires 0 <= i < |members| => members[i].key)
  }

  lemma KeysAppend(a: seq<Member>, b: seq<Member>)
    ensures Keys(a + b) == Keys(a) + Keys(b)
  {
  }

  /** The keys of a completed run's results, in insertion order: the sparse
      model and the three required steps, then each requested step's pair. */
  lemma ResultKeys(req: Request)
    ensures Keys(ReconstructionResults(req)) ==
      ["sparse_model", "feature_extraction", "feature_matching", "sparse_reconstruction"]
      + (if req.dense then ["dense_reconstruction", "dense_model"] else [])
      + (if req.meshing then ["meshing", "mesh_model"] else [])
      + (if req.texturing then ["texturing", "textured_model"] else [])
  {
    var out := Child(OutputDir, req.projectId);
    var base := RequiredResults(out);
    var d := if req.dense then DenseResults(out) else [];
    var m := if req.meshing then MeshResults(out) else [];
    var t := if req.texturing then TextureResults(out) else [];
    assert ReconstructionResults(req) == base + d + m + t;
    KeysAppend(base, d);
    KeysAppend(base + d, m);
    KeysAppend(base + d + m, t);
    RequiredKeys(out);
    assert Keys(d) == if req.dense then ["dense_reconstruction", "dense_model"] else [] by {
      EntryKeys("dense_reconstruction", "dense_model", Child(out, "dense_reconstruction.ply"));
    }
    assert Keys(m) == if req.meshing then ["meshing", "mesh_model"] else [] by {
      EntryKeys("meshing", "mesh_model", Child(out, "mesh.ply"));
    }
    assert Keys(t) == if req.texturing then ["texturing", "textured_model"] else [] by {
      EntryKeys("texturing", "textured_model", Child(out, "textured_mesh.obj"));
    }
  }

  lemma RequiredKeys(out: string)
    ensures Keys(RequiredResults(out)) ==
      ["sparse_model", "feature_extraction", "feature_matching", "sparse_reconstruction"]
  {
  }

  lemma EntryKeys(key: string, value: string, path: string)
    ensures Keys(ResultEntries(key, value, path)) == [key, value]
  {
  }

  /** The results hold the dense, mesh and texture models exactly when the
      request asked for those steps, and always the sparse model. */
  lemma ResultsFollowFlags(req: Request)
    ensures "dense_model" in Keys(ReconstructionResults(req)) <==> req.dense
    ensures "mesh_model" in Keys(ReconstructionResults(req)) <==> req.meshing
    ensures "textured_model" in Keys(ReconstructionResults(req)) <==> req.texturing
    ensures "sparse_model" in Keys(ReconstructionResults(req))
  {
    ResultKeys(req);
    var names := ["sparse_model", "feature_extraction", "feature_matching", "sparse_reconstruction"];
    var d: seq<string> := if req.dense then ["dense_reconstruction", "dense_model"] else [];
    var m: seq<string> := if req.meshing then ["meshing", "mesh_model"] else [];
    var t: seq<string> := if req.texturing then ["texturing", "textured_model"] else [];
    assert "dense_model" !in names + m + t;
    assert "mesh_model" !in names + d + t;
    assert "textured_model" !in names + d + m;
  }
}
