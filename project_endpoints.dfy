/** The project endpoints of the backend API
    (backend/app/api/api_v1/endpoints/projects.py) over the `projects`
    table and the project directories. app/services/colmap_pipeline.py is
    not part of this model: whether building the pipeline object raises is
    an input. */
module ProjectEndpoints {
  import opened Wrappers
  import opened Text
  import opened FileManager
  import opened ProjectRows
  import opened SqlPage

  const NoFrames := "No frames available for reconstruction"

  datatype ReconstructionStarted = ReconstructionStarted(message: string, projectId: int, quality: string, status: string)

  /** The body of `get_project_status` (quality, timings and times left
      out). */
  datatype Progress = Progress(projectId: int, status: ProjectStatus, totalFrames: int, processedFrames: int,
                               percentage: real)

  /** No two rows share an id (the column is the primary key). */
  predicate UniqueIds(rows: seq<Project>)
  {
    forall i, j | 0 <= i < j < |rows| :: rows[i].id != rows[j].id
  }

  /** Every id in the table was issued by the sequence before it reached
      `next`. */
  predicate IdsBelow(rows: seq<Project>, next: int)
  {
    forall i | 0 <= i < |rows| :: rows[i].id < next
  }

  /** The row `create_project` adds: the sequence's next id, owner 1, no
      files yet, no frames, and the table's default status. */
  function NewRow(id: int, name: string, description: Option<string>, initialStatus: ProjectStatus): Project
  {
    Project(id, name, description, initialStatus, 1, None, None, None, None, None, 0, 0)
  }

  /** None of the project's directories is blocked by a file. */
  predicate LayoutFree(d: Disk, projectId: int)
  {
    var l := Layout(ProjectDir(OutputDir, projectId));
    forall i | 0 <= i < |l| :: !Blocked(d, l[i].1)
  }

  /** `create_project`: the row takes the sequence's next id and is
      committed first, then the directories are made; if that raises the
      answer is 500, but the row stays. */
  method CreateProject(table: ProjectTable, fs: FileService, name: string, description: Option<string>)
    returns (r: Reply<Project>)
    modifies table, fs
    ensures var row := NewRow(old(table.nextId), name, description, table.initialStatus);
      table.rows == old(table.rows) + [row] &&
      (r.Reply? <==> LayoutFree(old(fs.disk), row.id)) &&
      (r.Reply? ==> r.body == row) &&
      (r.Refused? ==> r.status == 500)
    ensures table.nextId == old(table.nextId) + 1
    ensures fs.disk.files == old(fs.disk.files)
  {
    var row := Project(table.nextId, name, description, table.initialStatus, 1, None, None, None, None, None, 0, 0);
    table.rows := table.rows + [row];
    table.nextId := table.nextId + 1;
    var made := fs.CreateProjectDirectories(row.id);
    if made.Err? {
      return Refused(500, "Failed to create project: " + made.error.message);
    }
    r := Reply(row);
  }

  /** While every id lies below the sequence's next value, the new row is
      found under its id, every other id finds what it found before, ids
      stay unique and all lie below the advanced sequence. */
  lemma CreatedRowFound(rows: seq<Project>, next: int, name: string, description: Option<string>,
                        initialStatus: ProjectStatus)
    requires IdsBelow(rows, next)
    ensures var row := NewRow(next, name, description, initialStatus);
      FindProject(rows + [row], row.id) == Some(|rows|) &&
      (forall id | id != row.id :: FindProject(rows + [row], id) == FindProject(rows, id)) &&
      IdsBelow(rows + [row], next + 1) &&
      (UniqueIds(rows) ==> UniqueIds(rows + [row]))
  {
    var row := NewRow(next, name, description, initialStatus);
    FoundAtEnd(rows, row);
    forall id | id != row.id
      ensures FindProject(rows + [row], id) == FindProject(rows, id)
    {
      FindInPrefix(rows, row, id);
    }
    var all := rows + [row];
    forall i | 0 <= i < |all|
      ensures all[i].id < next + 1
    {
      if i < |rows| {
        assert all[i] == rows[i];
      }
    }
    if UniqueIds(rows) {
      forall i, j | 0 <= i < j < |all|
        ensures all[i].id != all[j].id
      {
        assert all[i] == rows[i];
      }
    }
  }

  lemma {:induction false} FoundAtEnd(rows: seq<Project>, row: Project)
    requires forall i | 0 <= i < |rows| :: rows[i].id != row.id
    ensures FindProject(rows + [row], row.id) == Some(|rows|)
  {
    if rows != [] {
      assert (rows + [row])[1..] == rows[1..] + [row];
      FoundAtEnd(rows[1..], row);
    }
  }

  lemma {:induction false} FindInPrefix(rows: seq<Project>, row: Project, id: int)
    requires row.id != id
    ensures FindProject(rows + [row], id) == FindProject(rows, id)
  {
    if rows != [] {
      assert (rows + [row])[1..] == rows[1..] + [row];
      FindInPrefix(rows[1..], row, id);
    }
  }

  /** `get_project`. */
  function GetProject(table: ProjectTable, projectId: int): (r: Reply<Project>)
    reads table
    ensures r.Refused? <==> forall i | 0 <= i < |table.rows| :: table.rows[i].id != projectId
    ensures r.Refused? ==> r == Refused(404, NotFound)
    ensures r.Reply? ==> r.body in table.rows && r.body.id == projectId
  {
    match FindProject(table.rows, projectId)
    case None => Refused(404, NotFound)
    case Some(k) => Reply(table.rows[k])
  }

  /** `list_projects`: PostgreSQL's `OFFSET skip LIMIT limit` over the
      table in its order; a negative bound makes the query raise, which
      the endpoint answers with 500. */
  function ListProjects(table: ProjectTable, skip: int, limit: int): (r: Reply<seq<Project>>)
    reads table
    ensures r.Refused? <==> skip < 0 || limit < 0
    ensures r.Refused? ==> r == Refused(500, "Failed to list projects: " + BoundError(skip, limit))
    ensures r.Reply? ==> forall p | p in r.body :: p in table.rows
    ensures r.Reply? ==>
      |r.body| == (if skip >= |table.rows| then 0 else Min(limit, |table.rows| - skip)) &&
      forall i | 0 <= i < |r.body| :: r.body[i] == table.rows[skip + i]
  {
    match Page(table.rows, skip, limit)
    case Err(e) => Refused(500, "Failed to list projects: " + e.message)
    case Ok(rows) => PageContents(table.rows, skip, limit); Reply(rows)
  }

  /** The fields an update sets, each only when given. */
  function Patched(p: Project, name: Option<string>, description: Option<string>, status: Option<ProjectStatus>): Project
  {
    p.(name := if name.Some? then name.value else p.name,
       description := if description.Some? then description else p.description,
       status := if status.Some? then status.value else p.status)
  }

  /** An update changes exactly the given fields: the rest of the row,
      including its id, stays as it was; repeating it changes nothing more,
      and an empty update changes nothing. */
  lemma PatchExact(p: Project, name: Option<string>, description: Option<string>, status: Option<ProjectStatus>)
    ensures var q := Patched(p, name, description, status);
      q == p.(name := q.name, description := q.description, status := q.status) &&
      (name.Some? ==> q.name == name.value) && (name.None? ==> q.name == p.name) &&
      (description.Some? ==> q.description == description) && (description.None? ==> q.description == p.description) &&
      (status.Some? ==> q.status == status.value) && (status.None? ==> q.status == p.status) &&
      Patched(q, name, description, status) == q
    ensures Patched(p, None, None, None) == p
  {
  }

  /** `update_project`. */
  method UpdateProject(table: ProjectTable, projectId: int, name: Option<string>, description: Option<string>,
                       status: Option<ProjectStatus>) returns (r: Reply<Project>)
    modifies table
    ensures FindProject(old(table.rows), projectId).None? ==> r == Refused(404, NotFound) && table.rows == old(table.rows)
    ensures FindProject(old(table.rows), projectId).Some? ==>
      var k := FindProject(old(table.rows), projectId).value;
      table.rows == old(table.rows)[k := Patched(old(table.rows)[k], name, description, status)] &&
      r == Reply(table.rows[k])
    ensures table.nextId == old(table.nextId)
  {
    var k := FindProject(table.rows, projectId);
    if k.None? {
      return Refused(404, NotFound);
    }
    var p := table.rows[k.value];
    if name.Some? {
      p := p.(name := name.value);
    }
    if description.Some? {
      p := p.(description := description);
    }
    if status.Some? {
      p := p.(status := status.value);
    }
    table.rows := table.rows[k.value := p];
    r := Reply(p);
  }

  /** `delete_project`: the project's directories are cleaned up, whatever
      the cleanup answers, and the row is removed. */
  method DeleteProject(table: ProjectTable, fs: FileService, projectId: int) returns (r: Reply<()>)
    modifies table, fs
    ensures FindProject(old(table.rows), projectId).None? ==>
      r == Refused(404, NotFound) && table.rows == old(table.rows) && fs.disk == old(fs.disk)
    ensures FindProject(old(table.rows), projectId).Some? ==>
      var k := FindProject(old(table.rows), projectId).value;
      r == Reply(()) && table.rows == old(table.rows)[..k] + old(table.rows)[k + 1..] &&
      fs.disk == Cleaned(old(fs.disk), Roots(projectId)).0
    ensures table.nextId == old(table.nextId)
  {
    var k := FindProject(table.rows, projectId);
    if k.None? {
      return Refused(404, NotFound);
    }
    var _ := fs.CleanupProjectFiles(projectId);
    table.rows := table.rows[..k.value] + table.rows[k.value + 1..];
    r := Reply(());
  }

  /** With unique ids, a deleted project is gone, every other row stays, and
      ids stay unique. */
  lemma DeleteRemoves(rows: seq<Project>, id: int)
    requires UniqueIds(rows) && FindProject(rows, id).Some?
    ensures var k := FindProject(rows, id).value;
      var rest := rows[..k] + rows[k + 1..];
      FindProject(rest, id).None? && |rest| == |rows| - 1 && UniqueIds(rest) &&
      forall i | 0 <= i < |rows| && i != k :: rows[i] in rest
  {
    var k := FindProject(rows, id).value;
    var rest := rows[..k] + rows[k + 1..];
    forall i | 0 <= i < |rest|
      ensures rest[i].id != id
    {
      RemovedIndex(rows, k, i);
    }
    forall a, b | 0 <= a < b < |rest|
      ensures rest[a].id != rest[b].id
    {
      RemovedIndex(rows, k, a);
      RemovedIndex(rows, k, b);
    }
    forall i | 0 <= i < |rows| && i != k
      ensures rows[i] in rest
    {
      var j := if i < k then i else i - 1;
      RemovedIndex(rows, k, j);
    }
  }

  /** Where an entry of the table without row `k` comes from. */
  lemma RemovedIndex(rows: seq<Project>, k: nat, i: nat)
    requires k < |rows| && i < |rows| - 1
    ensures (rows[..k] + rows[k + 1..])[i] == rows[if i < k then i else i + 1]
  {
  }

  /** A deleted id is never issued again: it lies below the sequence's
      next value, and so does every id left in the table, so the next
      created row's id differs from all of them. */
  lemma {:induction false} DeletedIdNotReissued(rows: seq<Project>, id: int, next: int)
    requires IdsBelow(rows, next) && FindProject(rows, id).Some?
    ensures var k := FindProject(rows, id).value;
      var rest := rows[..k] + rows[k + 1..];
      id < next && IdsBelow(rest, next) && forall i | 0 <= i < |rest| :: rest[i].id != next
  {
    var k := FindProject(rows, id).value;
    var rest := rows[..k] + rows[k + 1..];
    forall i | 0 <= i < |rest|
      ensures rest[i].id < next
    {
      RemovedIndex(rows, k, i);
    }
  }

  /** `start_reconstruction`: 404 for an unknown project and 400 without
      frames, both changing nothing; otherwise the project is marked
      processing, and failed if the pipeline object cannot be built
      (`pipelineError`), which answers 500. */
  method StartReconstruction(table: ProjectTable, projectId: int, quality: string, pipelineError: Option<string>)
    returns (r: Reply<ReconstructionStarted>)
    modifies table
    ensures FindProject(old(table.rows), projectId).None? ==> r == Refused(404, NotFound) && table.rows == old(table.rows)
    ensures FindProject(old(table.rows), projectId).Some? ==>
      var k := FindProject(old(table.rows), projectId).value;
      var p := old(table.rows)[k];
      if !Truthy(p.framesPath) then r == Refused(400, NoFrames) && table.rows == old(table.rows)
      else if pipelineError.Some? then
        table.rows == old(table.rows)[k := p.(status := Failed)] &&
        r == Refused(500, "Failed to start reconstruction: " + pipelineError.value)
      else
        table.rows == old(table.rows)[k := p.(status := Processing)] &&
        r == Reply(ReconstructionStarted("Reconstruction started", projectId, quality, "processing"))
    ensures table.nextId == old(table.nextId)
  {
    var k := FindProject(table.rows, projectId);
    if k.None? {
      return Refused(404, NotFound);
    }
    if !Truthy(table.rows[k.value].framesPath) {
      return Refused(400, NoFrames);
    }
    table.rows := table.rows[k.value := table.rows[k.value].(status := Processing)];
    if pipelineError.Some? {
      table.rows := table.rows[k.value := table.rows[k.value].(status := Failed)];
      return Refused(500, "Failed to start reconstruction: " + pipelineError.value);
    }
    r := Reply(ReconstructionStarted("Reconstruction started", projectId, quality, "processing"));
  }

  /** A start leaves the project findable and its frames in place, so the
      same request is never refused with 404 or 400 the second time. */
  lemma RestartAccepted(rows: seq<Project>, projectId: int, status: ProjectStatus)
    requires FindProject(rows, projectId).Some?
    requires Truthy(rows[FindProject(rows, projectId).value].framesPath)
    ensures var k := FindProject(rows, projectId).value;
      var after := rows[k := rows[k].(status := status)];
      FindProject(after, projectId) == Some(k) && Truthy(after[k].framesPath)
  {
    var k := FindProject(rows, projectId).value;
    FindAfterUpdate(rows, k, rows[k].(status := status));
  }

  /** The percentage of processed frames, 0 while the total is not
      positive. */
  function Percentage(processed: int, total: int): (r: real)
    ensures total <= 0 ==> r == 0.0
    ensures total > 0 && 0 <= processed <= total ==> 0.0 <= r <= 100.0
    ensures total > 0 ==> (r == 100.0 <==> processed == total)
  {
    if total > 0 then processed as real / total as real * 100.0 else 0.0
  }

  /** `get_project_status`. */
  function GetProjectStatus(table: ProjectTable, projectId: int): (r: Reply<Progress>)
    reads table
    ensures FindProject(table.rows, projectId).None? <==> r == Refused(404, NotFound)
    ensures r.Reply? ==>
      var p := table.rows[FindProject(table.rows, projectId).value];
      r.body == Progress(projectId, p.status, p.totalFrames, p.processedFrames,
                         Percentage(p.processedFrames, p.totalFrames))
  {
    match FindProject(table.rows, projectId)
    case None => Refused(404, NotFound)
    case Some(k) =>
      var p := table.rows[k];
      Reply(Progress(projectId, p.status, p.totalFrames, p.processedFrames, Percentage(p.processedFrames, p.totalFrames)))
  }
}
