/** The `projects` table the backend API reads and writes, restricted to
    the columns the endpoints touch. app/models/project.py is not part of
    this model: the members of `ProjectStatus` other than the three the
    endpoints name, and the default status of a new row, are inputs. */
module ProjectRows {
  import opened Wrappers

  datatype ProjectStatus = Processing | Completed | Failed | OtherStatus(name: string)

  datatype Project = Project(id: int, name: string, description: Option<string>, status: ProjectStatus, ownerId: int,
                             videoPath: Option<string>, framesPath: Option<string>, pointCloudPath: Option<string>,
                             meshPath: Option<string>, texturedMeshPath: Option<string>,
                             totalFrames: int, processedFrames: int)

  const NotFound := "Project not found"

  /** Python's truth value of a nullable text column. */
  predicate Truthy(s: Option<string>)
  {
    s.Some? && s.value != ""
  }

  /** `.filter(Project.id == project_id).first()`: the position of the
      first row with the id. */
  function FindProject(rows: seq<Project>, id: int): (k: Option<nat>)
    ensures k.Some? ==> k.value < |rows| && rows[k.value].id == id &&
                        forall i | 0 <= i < k.value :: rows[i].id != id
    ensures k.None? ==> forall i | 0 <= i < |rows| :: rows[i].id != id
  {
    if rows == [] then None
    else if rows[0].id == id then Some(0)
    else match FindProject(rows[1..], id)
      case None => None
      case Some(k) => Some(k + 1)
  }

  /** Rewriting a row without changing its id keeps every lookup's
      answer. */
  lemma {:induction false} FindAfterUpdate(rows: seq<Project>, k: nat, row: Project)
    requires k < |rows| && row.id == rows[k].id
    ensures forall id :: FindProject(rows[k := row], id) == FindProject(rows, id)
  {
    if k > 0 {
      FindAfterUpdate(rows[1..], k - 1, row);
      assert rows[k := row][1..] == rows[1..][k - 1 := row];
    } else {
      assert rows[k := row][1..] == rows[1..];
    }
  }

  /** The table, with the status a new row takes by default and the next
      value of the sequence behind its `SERIAL` id column. */
  class ProjectTable {
    var rows: seq<Project>
    var nextId: int
    const initialStatus: ProjectStatus

    constructor (rows: seq<Project>, nextId: int, initialStatus: ProjectStatus)
      ensures this.rows == rows && this.nextId == nextId && this.initialStatus == initialStatus
    {
      this.rows := rows;
      this.nextId := nextId;
      this.initialStatus := initialStatus;
    }
  }
}
