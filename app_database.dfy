/** The SQLite store of the upload service: users, projects, scans and one
    technical-details row per scan. Each table is a map from its primary key
    to its row. The moments SQLite stamps with CURRENT_TIMESTAMP and the ids
    made by uuid4() are parameters. SQLite does not enforce the declared
    foreign keys here (the pragma is never switched on), so rows may name a
    parent that does not exist. */
module AppDatabase {
  import opened Wrappers
  import opened Json
  import opened Sorting

  datatype User = User(id: string, email: string, name: Option<string>, createdAt: nat)

  datatype Project = Project(
    id: string, userId: string, name: string, description: string, location: string,
    spaceType: string, projectType: string, status: string, createdAt: nat, updatedAt: nat)

  datatype Scan = Scan(
    id: string, projectId: string, name: string, status: string, videoFilename: string,
    videoSize: int, processingQuality: string, createdAt: nat, updatedAt: nat)

  /** The dictionary handed to the technical-details write; a missing key is None. */
  datatype TechnicalData = TechnicalData(
    pointCount: Option<int>, cameraCount: Option<int>, featureCount: Option<int>,
    resolution: Option<string>, fileSizeBytes: Option<int>,
    processingStages: Option<Json>, results: Option<Json>)

  /** A row of `scan_technical_details`; the two nested values are stored as JSON text. */
  datatype DetailsRow = DetailsRow(
    scanId: string, pointCount: Option<int>, cameraCount: Option<int>, featureCount: Option<int>,
    resolution: Option<string>, fileSizeBytes: Option<int>,
    processingStages: string, results: string, createdAt: nat)

  datatype ProjectListing = ProjectListing(project: Project, scanCount: nat)

  datatype ScanListing = ScanListing(scan: Scan, pointCount: Option<int>, fileSizeBytes: Option<int>)

  /** A JSON column after the lookup: NULL, text left alone because it is empty, or the parsed value. */
  datatype Column = Null | Raw(text: string) | Loaded(value: Json)

  datatype ScanDetails = ScanDetails(
    scan: Scan, projectName: Option<string>, projectLocation: Option<string>,
    pointCount: Option<int>, cameraCount: Option<int>, featureCount: Option<int>,
    resolution: Option<string>, fileSizeBytes: Option<int>,
    processingStages: Column, results: Column)

  const JsonDecodeError := Error("JSONDecodeError", "stored column is not JSON")
  const IntegrityError := Error("IntegrityError", "UNIQUE constraint failed")

  function StagesOf(data: TechnicalData): Json
  {
    if data.processingStages.Some? then data.processingStages.value else JArr([])
  }

  function ResultsOf(data: TechnicalData): Json
  {
    if data.results.Some? then data.results.value else JObj([])
  }

  /** The row the upsert writes: nested values dumped to text, a fresh creation time. */
  function RowOf(scanId: string, data: TechnicalData, now: nat): DetailsRow
  {
    DetailsRow(scanId, data.pointCount, data.cameraCount, data.featureCount, data.resolution,
               data.fileSizeBytes, Encode(StagesOf(data)), Encode(ResultsOf(data)), now)
  }

  /** `if data.get(column): data[column] = json.loads(...)`. */
  function LoadColumn(text: Option<string>): (r: Result<Column>)
    ensures text.None? ==> r == Ok(Null)
    ensures text == Some([]) ==> r == Ok(Raw([]))
    ensures r.Ok? && r.value.Loaded? ==> text.Some? && Decode(text.value) == Some(r.value.value)
  {
    match text
    case None => Ok(Null)
    case Some(t) =>
      if t == [] then Ok(Raw(t))
      else match Decode(t)
        case None => Err(JsonDecodeError)
        case Some(j) => Ok(Loaded(j))
  }

  /** The joined row of the details lookup, for a scan that exists. */
  function DetailsView(scan: Scan, project: Option<Project>, row: Option<DetailsRow>): Result<ScanDetails>
  {
    var stages := LoadColumn(if row.Some? then Some(row.value.processingStages) else None);
    var results := LoadColumn(if row.Some? then Some(row.value.results) else None);
    if stages.Err? then Err(stages.error)
    else if results.Err? then Err(results.error)
    else
      Ok(ScanDetails(
        scan,
        if project.Some? then Some(project.value.name) else None,
        if project.Some? then Some(project.value.location) else None,
        if row.Some? then row.value.pointCount else None,
        if row.Some? then row.value.cameraCount else None,
        if row.Some? then row.value.featureCount else None,
        if row.Some? then row.value.resolution else None,
        if row.Some? then row.value.fileSizeBytes else None,
        stages.value, results.value))
  }

  /** What the details write stores, the details lookup gives back: the
      stage list and the results survive the dump and the load. */
  lemma SavedDetailsReadBack(scan: Scan, project: Option<Project>, data: TechnicalData, now: nat)
    ensures DetailsView(scan, project, Some(RowOf(scan.id, data, now))).Ok?
    ensures var d := DetailsView(scan, project, Some(RowOf(scan.id, data, now))).value;
      d.processingStages == Loaded(StagesOf(data)) && d.results == Loaded(ResultsOf(data)) &&
      d.pointCount == data.pointCount && d.fileSizeBytes == data.fileSizeBytes
  {
    DecodeEncode(StagesOf(data));
    DecodeEncode(ResultsOf(data));
    EncodeStart(StagesOf(data));
    EncodeStart(ResultsOf(data));
  }

  /** Without a details row every technical field of the lookup is empty. */
  lemma NoDetailsView(scan: Scan, project: Option<Project>)
    ensures DetailsView(scan, project, None).Ok?
    ensures var d := DetailsView(scan, project, None).value;
      d.processingStages == Null && d.results == Null && d.pointCount.None? && d.scan == scan
  {
  }

  /** A scan joined with its details row, when there is one. */
  function ListingIn(scans: map<string, Scan>, details: map<string, DetailsRow>, scanId: string): (r: ScanListing)
    requires scanId in scans
    ensures r.scan == scans[scanId]
    ensures scanId !in details ==> r.pointCount.None? && r.fileSizeBytes.None?
    ensures scanId in details ==> r.pointCount == details[scanId].pointCount && r.fileSizeBytes == details[scanId].fileSizeBytes
  {
    var row := if scanId in details then Some(details[scanId]) else None;
    ScanListing(scans[scanId],
                if row.Some? then row.value.pointCount else None,
                if row.Some? then row.value.fileSizeBytes else None)
  }

  /** A list that holds each key of `want` exactly once. */
  lemma ListsEachOnce(ids: seq<string>, want: set<string>)
    requires multiset(ids) == multiset(want)
    ensures forall i | 0 <= i < |ids| :: ids[i] in want
    ensures forall k | k in want :: k in ids
    ensures forall i, j | 0 <= i < j < |ids| :: ids[i] != ids[j]
  {
    forall i | 0 <= i < |ids| ensures ids[i] in want {
      assert ids[i] in multiset(ids);
    }
    forall k | k in want ensures k in ids {
      assert k in multiset(want);
    }
    forall i, j | 0 <= i < j < |ids| ensures ids[i] != ids[j] {
      var x := ids[i];
      assert ids == ids[..j] + ids[j..];
      assert ids[..j][i] == x;
      assert multiset(ids)[x] == multiset(ids[..j])[x] + multiset(ids[j..])[x];
      assert ids[j..][0] == ids[j];
    }
  }

  class Database {
    var users: map<string, User>
    var projects: map<string, Project>
    var scans: map<string, Scan>
    var details: map<string, DetailsRow>

    /** Primary keys match their rows, and `users.email` is UNIQUE. */
    ghost predicate Valid()
      reads this
    {
      (forall k | k in users :: users[k].id == k) &&
      (forall k, k' | k in users && k' in users && users[k].email == users[k'].email :: k == k') &&
      (forall k | k in projects :: projects[k].id == k) &&
      (forall k | k in scans :: scans[k].id == k) &&
      (forall k | k in details :: details[k].scanId == k)
    }

    /** `init_database`: the tables exist and are empty. */
    constructor ()
      ensures Valid()
      ensures users == map[] && projects == map[] && scans == map[] && details == map[]
    {
      users, projects, scans, details := map[], map[], map[], map[];
    }

    /** A user with an email already on file keeps the id on file; otherwise
        the fresh id is inserted and returned. When only the fresh id clashes,
        the insert fails and that id is returned without a row behind it. */
    method CreateUser(email: string, name: Option<string>, freshId: string, now: nat) returns (id: string)
      requires Valid()
      modifies this
      ensures Valid()
      ensures projects == old(projects) && scans == old(scans) && details == old(details)
      ensures (exists k | k in old(users) :: old(users)[k].email == email) ==>
        users == old(users) && id in users && users[id].email == email
      ensures (forall k | k in old(users) :: old(users)[k].email != email) ==>
        id == freshId &&
        users == if freshId in old(users) then old(users)
                 else old(users)[freshId := User(freshId, email, name, now)]
    {
      if exists k | k in users :: users[k].email == email {
        var k :| k in users && users[k].email == email;
        id := k;
      } else if freshId in users {
        id := freshId;
      } else {
        users := users[freshId := User(freshId, email, name, now)];
        id := freshId;
      }
    }

    method GetUserByEmail(email: string) returns (r: Option<User>)
      requires Valid()
      ensures r.Some? <==> exists k | k in users :: users[k].email == email
      ensures r.Some? ==> r.value.email == email && r.value.id in users && users[r.value.id] == r.value
    {
      if exists k | k in users :: users[k].email == email {
        var k :| k in users && users[k].email == email;
        r := Some(users[k]);
      } else {
        r := None;
      }
    }

    /** A new project is 'active' and stamped now; a clashing id raises. */
    method CreateProject(userId: string, name: string, description: string, location: string,
                         spaceType: string, projectType: string, freshId: string, now: nat)
      returns (r: Result<string>)
      requires Valid()
      modifies this
      ensures Valid()
      ensures users == old(users) && scans == old(scans) && details == old(details)
      ensures freshId in old(projects) ==> r == Err(IntegrityError) && projects == old(projects)
      ensures freshId !in old(projects) ==>
        r == Ok(freshId) &&
        projects == old(projects)[freshId := Project(freshId, userId, name, description, location,
                                                     spaceType, projectType, "active", now, now)]
    {
      if freshId in projects {
        r := Err(IntegrityError);
      } else {
        projects := projects[freshId := Project(freshId, userId, name, description, location,
                                                spaceType, projectType, "active", now, now)];
        r := Ok(freshId);
      }
    }

    function ScansOf(projectId: string): set<string>
      reads this
    {
      set k | k in scans && scans[k].projectId == projectId
    }

    /** `get_user_projects`: the user's projects, most recently updated first, each with its scan count. */
    method GetUserProjects(userId: string) returns (rows: seq<ProjectListing>)
      requires Valid()
      ensures forall i | 0 <= i < |rows| ::
        rows[i].project.id in projects && projects[rows[i].project.id] == rows[i].project &&
        rows[i].project.userId == userId && rows[i].scanCount == |ScansOf(rows[i].project.id)|
      ensures forall k | k in projects && projects[k].userId == userId ::
        exists i | 0 <= i < |rows| :: rows[i].project.id == k
      ensures forall i, j | 0 <= i < j < |rows| ::
        rows[i].project.updatedAt >= rows[j].project.updatedAt && rows[i].project.id != rows[j].project.id
    {
      var want := set k | k in projects && projects[k].userId == userId;
      var at := map k | k in projects :: projects[k].updatedAt;
      var ids := SortNewestFirst(want, at);
      ListsEachOnce(ids, want);
      assert forall i | 0 <= i < |ids| :: ids[i] in projects;
      rows := seq(|ids|, i reads this requires 0 <= i < |ids| && ids[i] in projects =>
                            ProjectListing(projects[ids[i]], |ScansOf(ids[i])|));
      forall i | 0 <= i < |rows|
        ensures rows[i].project.id in projects && projects[rows[i].project.id] == rows[i].project
        ensures rows[i].project.userId == userId && rows[i].scanCount == |ScansOf(rows[i].project.id)|
      {
        assert ids[i] in want;
      }
      forall i, j | 0 <= i < j < |rows|
        ensures rows[i].project.updatedAt >= rows[j].project.updatedAt && rows[i].project.id != rows[j].project.id
      {
        assert at[ids[i]] >= at[ids[j]];
      }
      forall k | k in projects && projects[k].userId == userId
        ensures exists i | 0 <= i < |rows| :: rows[i].project.id == k
      {
        assert k in want;
        var i :| 0 <= i < |ids| && ids[i] == k;
        assert rows[i].project.id == k;
      }
    }

    function GetProject(projectId: string): (r: Option<Project>)
      reads this
      requires Valid()
      ensures r.Some? <==> projectId in projects
      ensures r.Some? ==> r.value.id == projectId && r.value == projects[projectId]
    {
      if projectId in projects then Some(projects[projectId]) else None
    }

    /** A new scan is 'pending' with the given quality; the parent project's
        `updated_at` moves to now when the parent exists. A clashing id raises
        before anything is written. */
    method CreateScan(projectId: string, name: string, videoFilename: string, videoSize: int,
                      quality: string, freshId: string, now: nat) returns (r: Result<string>)
      requires Valid()
      modifies this
      ensures Valid()
      ensures users == old(users) && details == old(details)
      ensures freshId in old(scans) ==>
        r == Err(IntegrityError) && scans == old(scans) && projects == old(projects)
      ensures freshId !in old(scans) ==>
        r == Ok(freshId) &&
        scans == old(scans)[freshId := Scan(freshId, projectId, name, "pending", videoFilename,
                                            videoSize, quality, now, now)] &&
        projects == if projectId in old(projects)
                    then old(projects)[projectId := old(projects)[projectId].(updatedAt := now)]
                    else old(projects)
    {
      if freshId in scans {
        r := Err(IntegrityError);
        return;
      }
      scans := scans[freshId := Scan(freshId, projectId, name, "pending", videoFilename,
                                     videoSize, quality, now, now)];
      if projectId in projects {
        projects := projects[projectId := projects[projectId].(updatedAt := now)];
      }
      r := Ok(freshId);
    }

    /** `get_project_scans`: the project's scans, newest first, each joined with its details row. */
    method GetProjectScans(projectId: string) returns (rows: seq<ScanListing>)
      requires Valid()
      ensures forall i | 0 <= i < |rows| ::
        rows[i].scan.id in scans && rows[i].scan.projectId == projectId && rows[i] == ListingIn(scans, details, rows[i].scan.id)
      ensures forall k | k in ScansOf(projectId) :: exists i | 0 <= i < |rows| :: rows[i].scan.id == k
      ensures forall i, j | 0 <= i < j < |rows| ::
        rows[i].scan.createdAt >= rows[j].scan.createdAt && rows[i].scan.id != rows[j].scan.id
    {
      var want := ScansOf(projectId);
      var at := map k | k in scans :: scans[k].createdAt;
      var ids := SortNewestFirst(want, at);
      ListsEachOnce(ids, want);
      var ss, ds := scans, details;
      rows := seq(|ids|, i requires 0 <= i < |ids| && ids[i] in ss => ListingIn(ss, ds, ids[i]));
      forall k | k in want ensures exists i | 0 <= i < |rows| :: rows[i].scan.id == k {
        var i :| 0 <= i < |ids| && ids[i] == k;
        assert rows[i].scan.id == k;
      }
    }

    function GetScan(scanId: string): (r: Option<Scan>)
      reads this
      requires Valid()
      ensures r.Some? <==> scanId in scans
      ensures r.Some? ==> r.value.id == scanId && r.value == scans[scanId]
    {
      if scanId in scans then Some(scans[scanId]) else None
    }

    /** Only the named scan's `status` and `updated_at` change; an unknown id changes nothing. */
    method UpdateScanStatus(scanId: string, status: string, now: nat)
      requires Valid()
      modifies this
      ensures Valid()
      ensures users == old(users) && projects == old(projects) && details == old(details)
      ensures scans == if scanId in old(scans)
                       then old(scans)[scanId := old(scans)[scanId].(status := status, updatedAt := now)]
                       else old(scans)
    {
      if scanId in scans {
        scans := scans[scanId := scans[scanId].(status := status, updatedAt := now)];
      }
    }

    /** `INSERT OR REPLACE`: one details row per scan, the latest save
        replacing any earlier one; the scan, when present, becomes 'completed'. */
    method SaveScanTechnicalDetails(scanId: string, data: TechnicalData, now: nat)
      requires Valid()
      modifies this
      ensures Valid()
      ensures users == old(users) && projects == old(projects)
      ensures details == old(details)[scanId := RowOf(scanId, data, now)]
      ensures scans == if scanId in old(scans)
                       then old(scans)[scanId := old(scans)[scanId].(status := "completed", updatedAt := now)]
                       else old(scans)
    {
      details := details[scanId := RowOf(scanId, data, now)];
      if scanId in scans {
        scans := scans[scanId := scans[scanId].(status := "completed", updatedAt := now)];
      }
    }

    /** `get_scan_details`: None for an unknown scan, else the scan joined
        with its project and its details, JSON columns parsed. */
    function GetScanDetails(scanId: string): (r: Result<Option<ScanDetails>>)
      reads this
      requires Valid()
      ensures scanId !in scans ==> r == Ok(None)
      ensures r.Ok? && r.value.Some? ==> scanId in scans && r.value.value.scan == scans[scanId]
      ensures scanId in scans && scanId !in details ==> r.Ok? && r.value.Some? && r.value.value.processingStages == Null
    {
      if scanId !in scans then Ok(None)
      else
        var scan := scans[scanId];
        var project := if scan.projectId in projects then Some(projects[scan.projectId]) else None;
        var row := if scanId in details then Some(details[scanId]) else None;
        match DetailsView(scan, project, row)
        case Err(e) => Err(e)
        case Ok(d) => Ok(Some(d))
    }
  }

  /** Saving details and then looking the scan up gives back the saved stage
      list and results, and the scan reads as completed. */
  method SaveThenLookUp(db: Database, scanId: string, data: TechnicalData, now: nat)
    returns (r: Result<Option<ScanDetails>>)
    requires db.Valid() && scanId in db.scans
    modifies db
    ensures db.Valid()
    ensures r.Ok? && r.value.Some?
    ensures r.value.value.processingStages == Loaded(StagesOf(data))
    ensures r.value.value.results == Loaded(ResultsOf(data))
    ensures r.value.value.scan.status == "completed"
  {
    db.SaveScanTechnicalDetails(scanId, data, now);
    var scan := db.scans[scanId];
    var project := if scan.projectId in db.projects then Some(db.projects[scan.projectId]) else None;
    SavedDetailsReadBack(scan, project, data, now);
    r := db.GetScanDetails(scanId);
  }
}
