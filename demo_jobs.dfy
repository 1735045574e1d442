/** The demo jobs API (backend/app/api/api_v1/jobs.py): a fixed list of two
    mock jobs whose entries are updated in place by cancellation and by
    progress polls. Timestamps are seconds; the ISO text the endpoints show
    is left out. */
module DemoJobs {
  import opened Wrappers
  import opened Json

  /** One entry of `DEMO_JOBS`. */
  datatype DemoJob = DemoJob(id: string, projectId: string, kind: string, status: string, progress: int,
                             createdAt: int, updatedAt: int, duration: nat, details: Json)

  /** The answer of `list_jobs`. */
  datatype JobList = JobList(jobs: seq<DemoJob>, total: nat)

  /** The answer of `cancel_job`. */
  datatype Cancelled = Cancelled(message: string, jobId: string)

  /** The answer of `get_job_progress`. */
  datatype ProgressReport = ProgressReport(jobId: string, status: string, progress: int, updatedAt: int)

  const NotFound := "Job not found"
  const NotCancellable := "Job cannot be cancelled"

  /** Python's truth value of the optional `project_id` filter. */
  predicate Filtering(projectId: Option<string>)
  {
    projectId.Some? && projectId.value != ""
  }

  /** The jobs of the project, in list order. */
  function OfProject(jobs: seq<DemoJob>, projectId: string): (r: seq<DemoJob>)
    ensures forall j :: j in r <==> j in jobs && j.projectId == projectId
    ensures |r| <= |jobs|
  {
    if jobs == [] then []
    else (if jobs[0].projectId == projectId then [jobs[0]] else []) + OfProject(jobs[1..], projectId)
  }

  /** Filtering keeps list order and multiplicity: it distributes over
      concatenation. */
  lemma {:induction false} OfProjectAppend(a: seq<DemoJob>, b: seq<DemoJob>, projectId: string)
    ensures OfProject(a + b, projectId) == OfProject(a, projectId) + OfProject(b, projectId)
  {
    if a == [] {
      assert a + b == b;
    } else {
      var head := if a[0].projectId == projectId then [a[0]] else [];
      assert (a + b)[0] == a[0] && (a + b)[1..] == a[1..] + b;
      assert OfProject(a + b, projectId) == head + OfProject(a[1..] + b, projectId);
      OfProjectAppend(a[1..], b, projectId);
      assert OfProject(a, projectId) == head + OfProject(a[1..], projectId);
    }
  }

  /** A single entry is kept exactly when the filter accepts it. */
  lemma OfProjectOne(j: DemoJob, projectId: string)
    ensures OfProject([j], projectId) == if j.projectId == projectId then [j] else []
  {
    assert [j][1..] == [];
  }

  /** `next(job for job in DEMO_JOBS if job["id"] == job_id)`: the position
      of the first job with the id. */
  function Find(jobs: seq<DemoJob>, jobId: string): (k: Option<nat>)
    ensures k.Some? ==> k.value < |jobs| && jobs[k.value].id == jobId &&
                        forall i | 0 <= i < k.value :: jobs[i].id != jobId
    ensures k.None? ==> forall j | j in jobs :: j.id != jobId
  {
    if jobs == [] then None
    else if jobs[0].id == jobId then Some(0)
    else match Find(jobs[1..], jobId)
      case None => None
      case Some(k) => Some(k + 1)
  }

  /** A status `cancel_job` refuses to change. */
  predicate Final(status: string)
  {
    status in ["completed", "failed", "cancelled"]
  }

  /** The mock list. */
  class DemoJobStore {
    var jobs: seq<DemoJob>

    /** Every job's progress is a percentage. */
    predicate Valid()
      reads this
    {
      forall j | j in jobs :: 0 <= j.progress <= 100
    }

    /** `DEMO_JOBS` as the module builds it at import time `now`. */
    constructor (now: int)
      ensures Valid() && |jobs| == 2
      ensures jobs[0].id == "job_001" && jobs[0].status == "completed" && jobs[0].progress == 100
      ensures jobs[1].id == "job_002" && jobs[1].status == "running" && jobs[1].progress == 75
    {
      jobs := [
        DemoJob("job_001", "1", "colmap_processing", "completed", 100, now - 7200, now, 2700,
                JObj([Member("quality", JStr("high")), Member("frames_processed", JInt(120)),
                      Member("points_generated", JInt(45000))])),
        DemoJob("job_002", "2", "frame_extraction", "running", 75, now - 1800, now - 300, 1500,
                JObj([Member("frames_extracted", JInt(90)), Member("total_frames", JInt(120))]))
      ];
    }

    /** `list_jobs`: every job, or with a project id exactly that project's
        jobs; `total` is their number. */
    function ListJobs(projectId: Option<string>): (r: JobList)
      reads this
      ensures r.total == |r.jobs|
      ensures forall j :: j in r.jobs <==> j in jobs && (Filtering(projectId) ==> j.projectId == projectId.value)
    {
      var selected := if Filtering(projectId) then OfProject(jobs, projectId.value) else jobs;
      JobList(selected, |selected|)
    }

    /** `get_job`: the first job with the id, or 404. */
    function GetJob(jobId: string): (r: Reply<DemoJob>)
      reads this
      ensures r.Refused? <==> forall j | j in jobs :: j.id != jobId
      ensures r.Refused? ==> r == Refused(404, NotFound)
      ensures r.Reply? ==> r.body in jobs && r.body.id == jobId
    {
      match Find(jobs, jobId)
      case None => Refused(404, NotFound)
      case Some(k) => Reply(jobs[k])
    }

    /** `cancel_job` at time `now`: 404 for an unknown id, 400 for a job that
        is completed, failed or cancelled; otherwise the first job with the
        id becomes cancelled and nothing else changes. */
    method CancelJob(jobId: string, now: int) returns (r: Reply<Cancelled>)
      requires Valid()
      modifies this
      ensures Valid()
      ensures Find(old(jobs), jobId).None? ==> r == Refused(404, NotFound) && jobs == old(jobs)
      ensures Find(old(jobs), jobId).Some? ==>
        var k := Find(old(jobs), jobId).value;
        if Final(old(jobs)[k].status) then r == Refused(400, NotCancellable) && jobs == old(jobs)
        else r == Reply(Cancelled("Job cancelled successfully", jobId)) &&
             jobs == old(jobs)[k := old(jobs)[k].(status := "cancelled", updatedAt := now)]
    {
      var k := Find(jobs, jobId);
      if k.None? {
        return Refused(404, NotFound);
      }
      if Final(jobs[k.value].status) {
        return Refused(400, NotCancellable);
      }
      jobs := jobs[k.value := jobs[k.value].(status := "cancelled", updatedAt := now)];
      r := Reply(Cancelled("Job cancelled successfully", jobId));
    }

    /** `get_job_progress` at time `now`, with `step` the value
        `random.randint(0, 5)` draws: a running job gains the step, capped at
        100, and completes on reaching 100; other jobs are only reported. */
    method GetJobProgress(jobId: string, step: int, now: int) returns (r: Reply<ProgressReport>)
      requires Valid() && 0 <= step <= 5
      modifies this
      ensures Valid() && |jobs| == |old(jobs)|
      ensures Find(old(jobs), jobId).None? ==> r == Refused(404, NotFound) && jobs == old(jobs)
      ensures Find(old(jobs), jobId).Some? ==>
        var k := Find(old(jobs), jobId).value;
        jobs == old(jobs)[k := Polled(old(jobs)[k], step, now)] &&
        r == Reply(ProgressReport(jobId, jobs[k].status, jobs[k].progress, jobs[k].updatedAt))
    {
      var k := Find(jobs, jobId);
      if k.None? {
        return Refused(404, NotFound);
      }
      var job := jobs[k.value];
      if job.status == "running" {
        job := job.(progress := if 100 < job.progress + step then 100 else job.progress + step, updatedAt := now);
        if job.progress >= 100 {
          job := job.(status := "completed");
        }
      }
      jobs := jobs[k.value := job];
      r := Reply(ProgressReport(jobId, job.status, job.progress, job.updatedAt));
    }
  }

  /** One progress poll of a job. */
  function Polled(j: DemoJob, step: int, now: int): DemoJob
  {
    if j.status != "running" then j
    else
      var p := if 100 < j.progress + step then 100 else j.progress + step;
      j.(progress := p, updatedAt := now, status := if p >= 100 then "completed" else j.status)
  }

  /** A poll never lowers progress nor lifts it past 100; it changes only a
      running job, and a running job that reaches 100 is completed. The id,
      project, kind and creation time never change. */
  lemma PollMonotone(j: DemoJob, step: int, now: int)
    requires 0 <= j.progress <= 100 && 0 <= step <= 5
    ensures var q := Polled(j, step, now);
      j.progress <= q.progress <= 100 && q.progress - j.progress <= step &&
      (j.status != "running" ==> q == j) &&
      (j.status == "running" ==> (q.status == "completed" <==> q.progress == 100)) &&
      q.id == j.id && q.projectId == j.projectId && q.kind == j.kind && q.createdAt == j.createdAt
  {
  }

  /** Polls that each draw at least 1 bring a running job to completion:
      after `100 - progress` of them (and at least one) the job is completed
      at 100, and further polls keep it so. */
  lemma {:induction false} PollsComplete(j: DemoJob, steps: seq<int>, now: int)
    requires 0 <= j.progress <= 100 && (j.status == "running" || (j.status == "completed" && j.progress == 100))
    requires |steps| >= 100 - j.progress && (j.status == "running" ==> steps != [])
    requires forall i | 0 <= i < |steps| :: 1 <= steps[i] <= 5
    ensures PollAll(j, steps, now).status == "completed" && PollAll(j, steps, now).progress == 100
    decreases |steps|
  {
    if steps != [] {
      PollsComplete(Polled(j, steps[0], now), steps[1..], now);
    }
  }

  /** The job after a series of polls. */
  function PollAll(j: DemoJob, steps: seq<int>, now: int): DemoJob
    decreases |steps|
  {
    if steps == [] then j else PollAll(Polled(j, steps[0], now), steps[1..], now)
  }
}
