/** The Cloud Run worker (gcp-deployment/colmap-worker/main.py): uploads
    create queued jobs in an in-memory dictionary, and every status poll
    advances a job one step, queued to processing to completed, without any
    processing actually happening. */
module GcpWorker {
  import opened Wrappers
  import opened Text

  /** A reading of `datetime.now()`. */
  datatype Clock = Clock(year: nat, month: nat, day: nat, hour: nat, minute: nat, second: nat, micro: nat)

  /** The ranges `datetime` keeps its fields in. */
  predicate ValidClock(t: Clock)
  {
    1 <= t.year <= 9999 && 1 <= t.month <= 12 && 1 <= t.day <= 31 &&
    t.hour < 24 && t.minute < 60 && t.second < 60 && t.micro < 1000000
  }

  /** Two readings in the same second. */
  predicate SameSecond(a: Clock, b: Clock)
  {
    a.(micro := 0) == b.(micro := 0)
  }

  /** `strftime('%Y%m%d_%H%M%S')`. */
  function Stamp(t: Clock): (r: string)
    ensures |r| >= 15
    ensures forall i | 0 <= i < |r| :: IsDigit(r[i]) || r[i] == '_'
  {
    Padded(t.year, 4) + Padded(t.month, 2) + Padded(t.day, 2) + "_" +
    Padded(t.hour, 2) + Padded(t.minute, 2) + Padded(t.second, 2)
  }

  /** The id `upload_video` gives a job. */
  function JobId(t: Clock): (r: string)
    ensures StartsWith(r, "job_") && |r| >= 19
    ensures forall i | 4 <= i < |r| :: IsDigit(r[i]) || r[i] == '_'
  {
    "job_" + Stamp(t)
  }

  /** The body of `POST /upload-video`; the request's dense and meshing flags
      are never read. */
  datatype ProcessingRequest = ProcessingRequest(projectId: string, videoUrl: string, quality: string,
                                                 denseReconstruction: bool, meshing: bool)

  datatype ProcessingResponse = ProcessingResponse(jobId: string, status: string, message: string, createdAt: Clock)

  /** The `results` a completed job reports. */
  datatype Results = Results(pointCloudUrl: string, meshUrl: string, thumbnailUrl: string)

  /** An entry of `jobs`. */
  datatype GpuJob = GpuJob(status: string, projectId: string, videoUrl: string, quality: string, gpuEnabled: bool,
                           createdAt: Clock, message: string, results: Option<Results>)

  const Uploaded := "Video uploaded successfully. GPU-accelerated processing will begin shortly."
  const NotFound := "Job not found"

  /** The three download URLs of a job, all under `/models/<job_id>/`. */
  function ResultsFor(jobId: string): (r: Results)
    ensures var dir := "/models/" + jobId + "/";
      StartsWith(r.pointCloudUrl, dir) && StartsWith(r.meshUrl, dir) && StartsWith(r.thumbnailUrl, dir)
  {
    Results("/models/" + jobId + "/pointcloud.ply", "/models/" + jobId + "/mesh.obj",
            "/models/" + jobId + "/thumbnail.jpg")
  }

  /** What one poll does to a job. */
  function Polled(job: GpuJob, jobId: string): GpuJob
  {
    if job.status == "queued" then job.(status := "processing", message := "Extracting frames from video...")
    else if job.status == "processing" then
      job.(status := "completed", message := "3D reconstruction completed successfully!",
           results := Some(ResultsFor(jobId)))
    else job
  }

  /** The in-memory `jobs` dictionary. */
  class GpuWorker {
    var jobs: map<string, GpuJob>

    constructor ()
      ensures jobs == map[]
    {
      jobs := map[];
    }

    /** `upload_video`: a queued job under the id the clock reading `idTime`
        gives, replacing any job already under that id; `createdAt` is the
        second reading, `gpu` what the GPU probe answers. */
    method UploadVideo(request: ProcessingRequest, idTime: Clock, createdAt: Clock, gpu: bool)
      returns (response: ProcessingResponse)
      modifies this
      ensures jobs == old(jobs)[JobId(idTime) :=
        GpuJob("queued", request.projectId, request.videoUrl, request.quality, gpu, createdAt, Uploaded, None)]
      ensures response == ProcessingResponse(JobId(idTime), "queued", Uploaded, createdAt)
    {
      var jobId := "job_" + Stamp(idTime);
      jobs := jobs[jobId := GpuJob("queued", request.projectId, request.videoUrl, request.quality, gpu,
                                   createdAt, Uploaded, None)];
      response := ProcessingResponse(jobId, "queued", Uploaded, jobs[jobId].createdAt);
    }

    /** `get_job_status`: 404 for an unknown id; otherwise the job advances
        one step and is returned. No other job changes. */
    method GetJobStatus(jobId: string) returns (r: Reply<GpuJob>)
      modifies this
      ensures jobId !in old(jobs) ==> r == Refused(404, NotFound) && jobs == old(jobs)
      ensures jobId in old(jobs) ==>
        jobs == old(jobs)[jobId := Polled(old(jobs)[jobId], jobId)] && r == Reply(jobs[jobId])
    {
      if jobId !in jobs {
        return Refused(404, NotFound);
      }
      var job := jobs[jobId];
      if job.status == "queued" {
        job := job.(status := "processing", message := "Extracting frames from video...");
      } else if job.status == "processing" {
        job := job.(status := "completed", message := "3D reconstruction completed successfully!",
                    results := Some(ResultsFor(jobId)));
      }
      jobs := jobs[jobId := job];
      r := Reply(job);
    }
  }

  /** A poll moves queued to processing and processing to completed and
      leaves any other status alone; the results change exactly on the
      processing to completed step, where they become the job's three URLs.
      What the upload stored never changes. */
  lemma PollTransitions(job: GpuJob, jobId: string)
    ensures var p := Polled(job, jobId);
      (job.status == "queued" ==> p.status == "processing") &&
      (job.status == "processing" ==> p.status == "completed") &&
      (job.status !in {"queued", "processing"} ==> p == job) &&
      (p.results != job.results ==> job.status == "processing") &&
      (job.status == "processing" ==> p.results == Some(ResultsFor(jobId))) &&
      p.projectId == job.projectId && p.videoUrl == job.videoUrl && p.quality == job.quality &&
      p.createdAt == job.createdAt && p.gpuEnabled == job.gpuEnabled
  {
  }

  /** A fresh upload is completed, with its results, after exactly two polls,
      and stays as it is under further polls. */
  lemma TwoPollsComplete(job: GpuJob, jobId: string)
    requires job.status == "queued" && job.results.None?
    ensures Polled(job, jobId).status == "processing" && Polled(job, jobId).results.None?
    ensures var done := Polled(Polled(job, jobId), jobId);
      done.status == "completed" && done.results == Some(ResultsFor(jobId)) && Polled(done, jobId) == done
  {
  }

  /** Two uploads share an id, so the later replaces the earlier, exactly
      when their clock readings fall in the same second. */
  lemma SharedIdIffSameSecond(a: Clock, b: Clock)
    requires ValidClock(a) && ValidClock(b)
    ensures JobId(a) == JobId(b) <==> SameSecond(a, b)
  {
    if JobId(a) == JobId(b) {
      assert Stamp(a) == JobId(a)[4..] == JobId(b)[4..] == Stamp(b);
      StampFields(a);
      StampFields(b);
      PaddedInjective(a.year, b.year, 4);
      PaddedInjective(a.month, b.month, 2);
      PaddedInjective(a.day, b.day, 2);
      PaddedInjective(a.hour, b.hour, 2);
      PaddedInjective(a.minute, b.minute, 2);
      PaddedInjective(a.second, b.second, 2);
    }
  }

  /** Every field of a valid reading sits at a fixed place in its stamp. */
  lemma StampFields(t: Clock)
    requires ValidClock(t)
    ensures var s := Stamp(t);
      |s| == 15 && s[0..4] == Padded(t.year, 4) && s[4..6] == Padded(t.month, 2) && s[6..8] == Padded(t.day, 2) &&
      s[9..11] == Padded(t.hour, 2) && s[11..13] == Padded(t.minute, 2) && s[13..15] == Padded(t.second, 2)
  {
    PaddedWidth(t.year, 4);
    PaddedWidth(t.month, 2);
    PaddedWidth(t.day, 2);
    PaddedWidth(t.hour, 2);
    PaddedWidth(t.minute, 2);
    PaddedWidth(t.second, 2);
    var date := Padded(t.year, 4) + Padded(t.month, 2) + Padded(t.day, 2);
    var time := Padded(t.hour, 2) + Padded(t.minute, 2) + Padded(t.second, 2);
    assert Stamp(t) == date + "_" + time;
    assert Stamp(t)[..8] == date;
    assert Stamp(t)[9..] == time;
    assert Stamp(t)[9..11] == time[0..2];
    assert Stamp(t)[11..13] == time[2..4];
    assert Stamp(t)[13..15] == time[4..6];
  }
}
