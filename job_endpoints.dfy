/** The processing-job endpoints of the backend API
    (backend/app/api/api_v1/endpoints/jobs.py) over the `processing_jobs`
    table: fetching a job, cancelling it, and the per-project status
    summary. The table is a sequence of rows in query order; progress is a
    fraction held as an exact `real`. */
module JobEndpoints {
  import opened Wrappers
  import opened Tally
  import opened SqlPage
  import opened Text

  /** `JobStatus`. Only the members the endpoints name are distinguished;
      app/models/job.py is not part of this model, so every other member is
      `OtherStatus` with its name. */
  datatype JobStatus = Pending | Running | Cancelled | OtherStatus(name: string)

  /** A row of `processing_jobs`, restricted to the columns the endpoints
      read or write. */
  datatype ProcessingJob = ProcessingJob(id: int, projectId: int, jobType: string, status: JobStatus,
                                         progress: real)

  /** The answer of `cancel_job`. */
  datatype Cancellation = Cancellation(message: string, jobId: int, status: JobStatus)

  /** The answer of `get_project_jobs_status`; the two dictionaries keep
      their insertion order. */
  datatype StatusSummary = StatusSummary(totalJobs: nat, byStatus: Counts<JobStatus>, byType: Counts<string>,
                                         overallProgress: real)

  const NotFound := "Job not found"
  const NotCancellable := "Job cannot be cancelled in its current status"

  /** `.filter(ProcessingJob.id == job_id).first()`: the position of the
      first row with the id. */
  function FindJob(jobs: seq<ProcessingJob>, jobId: int): (k: Option<nat>)
    ensures k.Some? ==> k.value < |jobs| && jobs[k.value].id == jobId &&
                        forall i | 0 <= i < k.value :: jobs[i].id != jobId
    ensures k.None? ==> forall i | 0 <= i < |jobs| :: jobs[i].id != jobId
  {
    if jobs == [] then None
    else if jobs[0].id == jobId then Some(0)
    else match FindJob(jobs[1..], jobId)
      case None => None
      case Some(k) => Some(k + 1)
  }

  /** The elements `keep` accepts, in order. */
  function Keep<T(!new)>(xs: seq<T>, keep: T -> bool): (r: seq<T>)
    ensures |r| <= |xs|
    ensures forall x :: x in r <==> x in xs && keep(x)
  {
    if xs == [] then [] else (if keep(xs[0]) then [xs[0]] else []) + Keep(xs[1..], keep)
  }

  /** Keeping distributes over concatenation. */
  lemma {:induction false} KeepAppend<T(!new)>(a: seq<T>, b: seq<T>, keep: T -> bool)
    ensures Keep(a + b, keep) == Keep(a, keep) + Keep(b, keep)
  {
    if a == [] {
      assert a + b == b;
    } else {
      assert (a + b)[0] == a[0] && (a + b)[1..] == a[1..] + b;
      KeepAppend(a[1..], b, keep);
    }
  }

  /** `.filter(ProcessingJob.project_id == project_id).all()`. */
  function ProjectJobs(jobs: seq<ProcessingJob>, projectId: int): (r: seq<ProcessingJob>)
    ensures forall j :: j in r <==> j in jobs && j.projectId == projectId
  {
    Keep(jobs, (j: ProcessingJob) => j.projectId == projectId)
  }

  /** The project filter keeps query order and multiplicity: it
      distributes over concatenation. */
  lemma ProjectJobsAppend(a: seq<ProcessingJob>, b: seq<ProcessingJob>, projectId: int)
    ensures ProjectJobs(a + b, projectId) == ProjectJobs(a, projectId) + ProjectJobs(b, projectId)
  {
    KeepAppend(a, b, (j: ProcessingJob) => j.projectId == projectId);
  }

  /** A single entry is kept exactly when the filter accepts it. */
  lemma ProjectJobsOne(j: ProcessingJob, projectId: int)
    ensures ProjectJobs([j], projectId) == if j.projectId == projectId then [j] else []
  {
    assert [j][1..] == [];
  }

  /** The filters of `list_jobs`, each applied when its argument is truthy:
      a project id of 0 and an empty type filter nothing; a status always
      filters, every member of the enum being a non-empty string. */
  predicate Selected(j: ProcessingJob, projectId: Option<int>, status: Option<JobStatus>, jobType: Option<string>)
  {
    (projectId.Some? && projectId.value != 0 ==> j.projectId == projectId.value) &&
    (status.Some? ==> j.status == status.value) &&
    (jobType.Some? && jobType.value != "" ==> j.jobType == jobType.value)
  }

  /** The rows the filters keep, in query order. */
  function Filtered(jobs: seq<ProcessingJob>, projectId: Option<int>, status: Option<JobStatus>, jobType: Option<string>)
    : (r: seq<ProcessingJob>)
    ensures |r| <= |jobs|
    ensures forall j :: j in r <==> j in jobs && Selected(j, projectId, status, jobType)
  {
    Keep(jobs, j => Selected(j, projectId, status, jobType))
  }

  /** The filters keep query order and multiplicity: filtering
      distributes over concatenation. */
  lemma FilteredAppend(a: seq<ProcessingJob>, b: seq<ProcessingJob>, projectId: Option<int>,
                       status: Option<JobStatus>, jobType: Option<string>)
    ensures Filtered(a + b, projectId, status, jobType) ==
            Filtered(a, projectId, status, jobType) + Filtered(b, projectId, status, jobType)
  {
    KeepAppend(a, b, j => Selected(j, projectId, status, jobType));
  }

  /** A single entry is kept exactly when the filter accepts it. */
  lemma FilteredOne(j: ProcessingJob, projectId: Option<int>, status: Option<JobStatus>, jobType: Option<string>)
    ensures Filtered([j], projectId, status, jobType) == if Selected(j, projectId, status, jobType) then [j] else []
  {
    assert [j][1..] == [];
  }

  function Statuses(jobs: seq<ProcessingJob>): (r: seq<JobStatus>)
    ensures |r| == |jobs| && forall i | 0 <= i < |jobs| :: r[i] == jobs[i].status
  {
    if jobs == [] then [] else Statuses(jobs[..|jobs| - 1]) + [jobs[|jobs| - 1].status]
  }

  function Types(jobs: seq<ProcessingJob>): (r: seq<string>)
    ensures |r| == |jobs| && forall i | 0 <= i < |jobs| :: r[i] == jobs[i].jobType
  {
    if jobs == [] then [] else Types(jobs[..|jobs| - 1]) + [jobs[|jobs| - 1].jobType]
  }

  /** The sum of the jobs' progress, in list order. */
  function TotalProgress(jobs: seq<ProcessingJob>): real
  {
    if jobs == [] then 0.0 else TotalProgress(jobs[..|jobs| - 1]) + jobs[|jobs| - 1].progress
  }

  /** The summary of a project's jobs: their number, the count per status
      and per type in first-seen order, and their mean progress, or 0 with
      no job. */
  function Summary(jobs: seq<ProcessingJob>): StatusSummary
  {
    StatusSummary(|jobs|, Tallied(Statuses(jobs)), Tallied(Types(jobs)),
                  if jobs == [] then 0.0 else TotalProgress(jobs) / (|jobs| as real))
  }

  /** The per-status counts add up to `total_jobs`, the number of jobs,
      each status is a key at most once, with the number of jobs that have
      it; with no job the overall progress is 0. */
  lemma SummaryByStatus(jobs: seq<ProcessingJob>)
    ensures var s := Summary(jobs);
      Sum(s.byStatus) == s.totalJobs == |jobs| && Distinct(Keys(s.byStatus)) &&
      (forall st :: Get(s.byStatus, st) == Count(Statuses(jobs), st)) &&
      (jobs == [] ==> s.overallProgress == 0.0)
  {
    TalliedCounts(Statuses(jobs));
  }

  /** The statuses counted are exactly those of the project's jobs. */
  lemma StatusKeys(jobs: seq<ProcessingJob>)
    ensures forall st :: st in Keys(Summary(jobs).byStatus) <==> exists i | 0 <= i < |jobs| :: jobs[i].status == st
  {
    var ss := Statuses(jobs);
    TalliedCounts(ss);
    forall st | st in ss
      ensures exists i | 0 <= i < |jobs| :: jobs[i].status == st
    {
      var i :| 0 <= i < |ss| && ss[i] == st;
      assert jobs[i].status == st;
    }
  }

  /** The same two facts for the per-type counts. */
  lemma SummaryByType(jobs: seq<ProcessingJob>)
    ensures var s := Summary(jobs);
      Sum(s.byType) == s.totalJobs && Distinct(Keys(s.byType)) &&
      (forall t :: Get(s.byType, t) == Count(Types(jobs), t))
  {
    TalliedCounts(Types(jobs));
  }

  lemma TypeKeys(jobs: seq<ProcessingJob>)
    ensures forall t :: t in Keys(Summary(jobs).byType) <==> exists i | 0 <= i < |jobs| :: jobs[i].jobType == t
  {
    var ts := Types(jobs);
    TalliedCounts(ts);
    forall t | t in ts
      ensures exists i | 0 <= i < |jobs| :: jobs[i].jobType == t
    {
      var i :| 0 <= i < |ts| && ts[i] == t;
      assert jobs[i].jobType == t;
    }
  }

  /** One more job in the loop of `get_project_jobs_status`. */
  lemma SummaryStep(js: seq<ProcessingJob>, i: nat)
    requires i < |js|
    ensures Tallied(Statuses(js[..i + 1])) == Bump(Tallied(Statuses(js[..i])), js[i].status)
    ensures Tallied(Types(js[..i + 1])) == Bump(Tallied(Types(js[..i])), js[i].jobType)
    ensures TotalProgress(js[..i + 1]) == TotalProgress(js[..i]) + js[i].progress
  {
    assert js[..i + 1][..i] == js[..i];
    assert Statuses(js[..i + 1]) == Statuses(js[..i]) + [js[i].status];
    assert Types(js[..i + 1]) == Types(js[..i]) + [js[i].jobType];
    TalliedSnoc(Statuses(js[..i]), js[i].status);
    TalliedSnoc(Types(js[..i]), js[i].jobType);
  }

  /** With every job's progress between 0 and 1, so is the overall
      progress. */
  lemma {:induction false} OverallProgressBounded(jobs: seq<ProcessingJob>)
    requires forall i | 0 <= i < |jobs| :: 0.0 <= jobs[i].progress <= 1.0
    ensures 0.0 <= Summary(jobs).overallProgress <= 1.0
  {
    if jobs != [] {
      TotalBounded(jobs);
      MeanBounded(TotalProgress(jobs), |jobs| as real);
    }
  }

  lemma MeanBounded(total: real, n: real)
    requires 0.0 <= total <= n && n > 0.0
    ensures 0.0 <= total / n <= 1.0
  {
    var q := total / n;
    assert q * n == total;
  }

  lemma {:induction false} TotalBounded(jobs: seq<ProcessingJob>)
    requires forall i | 0 <= i < |jobs| :: 0.0 <= jobs[i].progress <= 1.0
    ensures 0.0 <= TotalProgress(jobs) <= |jobs| as real
  {
    if jobs != [] {
      TotalBounded(jobs[..|jobs| - 1]);
    }
  }

  /** The `processing_jobs` table. */
  class JobTable {
    var jobs: seq<ProcessingJob>

    constructor (jobs: seq<ProcessingJob>)
      ensures this.jobs == jobs
    {
      this.jobs := jobs;
    }

    /** `list_jobs`: the filtered rows, then PostgreSQL's `OFFSET skip
        LIMIT limit`; a negative bound makes the query raise, which the
        endpoint answers with 500. */
    function ListJobs(projectId: Option<int>, status: Option<JobStatus>, jobType: Option<string>,
                      skip: int, limit: int): (r: Reply<seq<ProcessingJob>>)
      reads this
      ensures r.Refused? <==> skip < 0 || limit < 0
      ensures r.Refused? ==> r == Refused(500, "Failed to list jobs: " + BoundError(skip, limit))
      ensures r.Reply? ==> forall j | j in r.body :: j in jobs && Selected(j, projectId, status, jobType)
      ensures r.Reply? ==>
        var f := Filtered(jobs, projectId, status, jobType);
        |r.body| == (if skip >= |f| then 0 else Min(limit, |f| - skip)) &&
        forall i | 0 <= i < |r.body| :: r.body[i] == f[skip + i]
    {
      var f := Filtered(jobs, projectId, status, jobType);
      match Page(f, skip, limit)
      case Err(e) => Refused(500, "Failed to list jobs: " + e.message)
      case Ok(rows) => PageContents(f, skip, limit); Reply(rows)
    }

    /** `get_job`: the row with the id, or 404. */
    function GetJob(jobId: int): (r: Reply<ProcessingJob>)
      reads this
      ensures r.Refused? <==> forall i | 0 <= i < |jobs| :: jobs[i].id != jobId
      ensures r.Refused? ==> r == Refused(404, NotFound)
      ensures r.Reply? ==> r.body in jobs && r.body.id == jobId
    {
      match FindJob(jobs, jobId)
      case None => Refused(404, NotFound)
      case Some(k) => Reply(jobs[k])
    }

    /** `cancel_job`: 404 for an unknown id; 400, with the row unchanged,
        unless the job is pending or running; otherwise the job becomes
        cancelled and no other row or column changes. */
    method CancelJob(jobId: int) returns (r: Reply<Cancellation>)
      modifies this
      ensures FindJob(old(jobs), jobId).None? ==> r == Refused(404, NotFound) && jobs == old(jobs)
      ensures FindJob(old(jobs), jobId).Some? ==>
        var k := FindJob(old(jobs), jobId).value;
        if old(jobs)[k].status !in {Pending, Running} then r == Refused(400, NotCancellable) && jobs == old(jobs)
        else r == Reply(Cancellation("Job cancelled successfully", jobId, Cancelled)) &&
             jobs == old(jobs)[k := old(jobs)[k].(status := Cancelled)]
    {
      var k := FindJob(jobs, jobId);
      if k.None? {
        return Refused(404, NotFound);
      }
      var job := jobs[k.value];
      if job.status != Pending && job.status != Running {
        return Refused(400, NotCancellable);
      }
      jobs := jobs[k.value := job.(status := Cancelled)];
      r := Reply(Cancellation("Job cancelled successfully", jobId, jobs[k.value].status));
    }

    /** `get_project_jobs_status`: one pass over the project's jobs,
        counting by status and by type and adding up progress. */
    method ProjectJobsStatus(projectId: int) returns (s: StatusSummary)
      ensures s == Summary(ProjectJobs(jobs, projectId))
    {
      var js := ProjectJobs(jobs, projectId);
      var byStatus: Counts<JobStatus> := [];
      var byType: Counts<string> := [];
      var total := 0.0;
      for i := 0 to |js|
        invariant byStatus == Tallied(Statuses(js[..i]))
        invariant byType == Tallied(Types(js[..i]))
        invariant total == TotalProgress(js[..i])
      {
        SummaryStep(js, i);
        byStatus := Bump(byStatus, js[i].status);
        byType := Bump(byType, js[i].jobType);
        total := total + js[i].progress;
      }
      assert js[..|js|] == js;
      s := StatusSummary(|js|, byStatus, byType, 0.0);
      if js != [] {
        s := s.(overallProgress := total / (|js| as real));
      }
    }
  }

  /** A cancel that succeeds leaves a cancelled job, which a second cancel
      refuses with 400 and leaves alone. */
  lemma CancelOnce(jobs: seq<ProcessingJob>, k: nat)
    requires k < |jobs| && jobs[k].status in {Pending, Running}
    requires FindJob(jobs, jobs[k].id) == Some(k)
    ensures var after := jobs[k := jobs[k].(status := Cancelled)];
      FindJob(after, jobs[k].id) == Some(k) && after[k].status !in {Pending, Running}
  {
    var after := jobs[k := jobs[k].(status := Cancelled)];
    FindAfterUpdate(jobs, k, jobs[k].(status := Cancelled));
  }

  /** Changing a row but not its id keeps every lookup's answer. */
  lemma {:induction false} FindAfterUpdate(jobs: seq<ProcessingJob>, k: nat, row: ProcessingJob)
    requires k < |jobs| && row.id == jobs[k].id
    ensures forall id :: FindJob(jobs[k := row], id) == FindJob(jobs, id)
  {
    if k > 0 {
      FindAfterUpdate(jobs[1..], k - 1, row);
      assert jobs[k := row][1..] == jobs[1..][k - 1 := row];
    } else {
      assert jobs[k := row][1..] == jobs[1..];
    }
  }
}
