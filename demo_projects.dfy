/** The demo projects API for local development
    (backend/app/api/api_v1/projects.py): an in-memory dictionary of
    projects keyed by the decimal text of their id, each holding a list of
    scans. The clock readings are parameters. */
module DemoProjects {
  import opened Wrappers
  import opened Text

  /** The demo upload limit, 1 GiB. */
  const MaxVideoSize := 1024 * 1024 * 1024

  const NotFound := "Project not found"

  datatype Scan = Scan(id: string, name: string, description: Option<string>, status: string,
                       videoFile: Option<string>, framesExtracted: nat, processingProgress: nat, modelReady: bool,
                       createdAt: string)

  datatype DemoProject = DemoProject(id: nat, name: string, description: Option<string>, location: Option<string>,
                                     status: string, createdAt: string, updatedAt: string, scans: seq<Scan>)

  /** An entry of the project list, as the front end reads it. */
  datatype Card = Card(id: string, title: string, description: Option<string>, location: Option<string>,
                       status: string, updatedAt: string, thumbnail: Option<string>)

  datatype UploadReceipt = UploadReceipt(filename: string, size: nat, status: string)

  datatype Started = Started(message: string, projectId: string, quality: string, status: string)

  datatype ModelInfo = ModelInfo(modelUrl: string, format: string, points: nat)

  /** `stamp[:10]`, the date part of an ISO time text. */
  function Date(stamp: string): (r: string)
    ensures |r| <= 10 && |r| <= |stamp| && r == stamp[..|r|]
    ensures |r| < 10 ==> r == stamp
  {
    if |stamp| <= 10 then stamp else stamp[..10]
  }

  /** How a project is listed. */
  function CardOf(p: DemoProject): Card
  {
    Card(Decimal(p.id), p.name, p.description, p.location, p.status, Date(p.updatedAt), None)
  }

  /** The list `list_projects` builds, one card per key in the dictionary's
      order. */
  function Cards(order: seq<string>, projects: map<string, DemoProject>): (r: seq<Card>)
    requires forall k | k in order :: k in projects
    ensures |r| == |order|
    ensures forall i | 0 <= i < |order| :: r[i] == CardOf(projects[order[i]])
  {
    if order == [] then []
    else Cards(order[..|order| - 1], projects) + [CardOf(projects[order[|order| - 1]])]
  }

  /** The `DEMO_PROJECTS` dictionary. `order` is its keys in insertion
      order, so `|order|` is its length. */
  class DemoProjectStore {
    var order: seq<string>
    var projects: map<string, DemoProject>

    /** The keys are "1" to "n" in insertion order, the project under a key
        has the key's number as its id, and the scans of every project are
        numbered "1" to "m" in order. */
    predicate Valid()
      reads this
    {
      projects.Keys == (set k | k in order) &&
      (forall i | 0 <= i < |order| :: order[i] == Decimal(i + 1) && projects[order[i]].id == i + 1) &&
      (forall k | k in projects :: NumberedScans(projects[k].scans))
    }

    /** The three seeded projects. */
    constructor ()
      ensures Valid() && order == ["1", "2", "3"]
      ensures projects["1"].status == "completed" && |projects["1"].scans| == 1
      ensures projects["2"].status == "processing" && projects["2"].scans == []
      ensures projects["3"].status == "draft" && projects["3"].scans == []
    {
      var nave := Nave();
      var casa := Casa();
      var plaza := Plaza();
      order := ["1", "2", "3"];
      projects := map["1" := nave, "2" := casa, "3" := plaza];
      new;
      assert Decimal(1) == "1" && Decimal(2) == "2" && Decimal(3) == "3";
    }

    /** `list_projects`: a card per project, in insertion order. */
    method ListProjects() returns (cards: seq<Card>)
      requires Valid()
      ensures cards == Cards(order, projects)
    {
      cards := [];
      for i := 0 to |order|
        invariant cards == Cards(order[..i], projects)
      {
        assert order[..i + 1][..i] == order[..i];
        cards := cards + [CardOf(projects[order[i]])];
      }
      assert order[..|order|] == order;
    }

    /** `create_project`: the next number is the new key, always a fresh
        one, and the new project starts as a draft without scans. */
    method CreateProject(name: string, description: Option<string>, location: Option<string>, now: string)
      returns (card: Card)
      requires Valid()
      modifies this
      ensures Valid()
      ensures var key := Decimal(|old(order)| + 1);
        key !in old(projects) && order == old(order) + [key] &&
        projects == old(projects)[key := DemoProject(|old(order)| + 1, name, description, location, "draft", now, now, [])] &&
        card == Card(key, name, description, location, "draft", Date(now), None)
    {
      var newId := Decimal(|order| + 1);
      FreshKey(order, |order| + 1);
      var project := DemoProject(|order| + 1, name, description, location, "draft", now, now, []);
      projects := projects[newId := project];
      order := order + [newId];
      card := Card(newId, project.name, project.description, project.location, project.status, Date(project.updatedAt), None);
    }

    /** `get_project`. */
    function GetProject(key: string): (r: Reply<DemoProject>)
      reads this
      ensures r.Refused? <==> key !in projects
      ensures r.Refused? ==> r == Refused(404, NotFound)
      ensures r.Reply? ==> r.body == projects[key]
    {
      if key !in projects then Refused(404, NotFound) else Reply(projects[key])
    }

    /** `create_scan`: the scan is numbered after the existing ones, starts
        as a draft with nothing done, and the project's update time moves. */
    method CreateScan(key: string, name: string, description: Option<string>, now: string) returns (r: Reply<Scan>)
      requires Valid()
      modifies this
      ensures Valid() && order == old(order)
      ensures key !in old(projects) ==> r == Refused(404, NotFound) && projects == old(projects)
      ensures key in old(projects) ==>
        var p := old(projects)[key];
        var scan := Scan(Decimal(|p.scans| + 1), name, description, "draft", None, 0, 0, false, now);
        r == Reply(scan) && projects == old(projects)[key := p.(scans := p.scans + [scan], updatedAt := now)]
    {
      if key !in projects {
        return Refused(404, NotFound);
      }
      var p := projects[key];
      var scan := Scan(Decimal(|p.scans| + 1), name, description, "draft", None, 0, 0, false, now);
      projects := projects[key := p.(scans := p.scans + [scan], updatedAt := now)];
      r := Reply(scan);
    }

    /** `upload_video`: the size check applies only when a non-zero size is
        known; without any size the reply's message cannot be rendered and
        the request fails. */
    function UploadVideo(key: string, filename: string, size: Option<nat>): (r: Reply<UploadReceipt>)
      reads this
      ensures r.Refused? ==> r.status in {404, 413, 500}
      ensures r.Refused? && r.status == 500 <==> key in projects && size.None?
      ensures r.Reply? ==> r.body.status == "uploaded" && r.body.size <= MaxVideoSize
    {
      if key !in projects then Refused(404, NotFound)
      else if size.Some? && size.value > 0 && size.value > MaxVideoSize then
        Refused(413, "Video file size exceeds maximum allowed size (1GB)")
      else if size.None? then Refused(500, "Internal Server Error")
      else Reply(UploadReceipt(filename, size.value, "uploaded"))
    }

    /** `start_processing`: only the status and the update time change. */
    method StartProcessing(key: string, quality: string, now: string) returns (r: Reply<Started>)
      requires Valid()
      modifies this
      ensures Valid() && order == old(order)
      ensures key !in old(projects) ==> r == Refused(404, NotFound) && projects == old(projects)
      ensures key in old(projects) ==>
        projects == old(projects)[key := old(projects)[key].(status := "processing", updatedAt := now)] &&
        r == Reply(Started("COLMAP processing started", key, quality, "processing"))
    {
      if key !in projects {
        return Refused(404, NotFound);
      }
      projects := projects[key := projects[key].(status := "processing", updatedAt := now)];
      r := Reply(Started("COLMAP processing started", key, quality, "processing"));
    }

    /** `get_3d_model`: the same mock model for every known project. */
    function Get3dModel(key: string): (r: Reply<ModelInfo>)
      reads this
      ensures r.Reply? <==> key in projects
      ensures r.Reply? ==> StartsWith(r.body.modelUrl, "/static/models/" + key + "/")
    {
      if key !in projects then Refused(404, NotFound)
      else Reply(ModelInfo("/static/models/" + key + "/model.ply", "PLY", 45000))
    }
  }

  /** The seeded projects: one completed with one finished scan, one
      processing and one draft, both without scans. */
  method Nave() returns (p: DemoProject)
    ensures p.id == 1 && p.status == "completed" && |p.scans| == 1 && NumberedScans(p.scans)
  {
    p := DemoProject(1, "ITECSA Nave Industrial", Some("Render de sitio de obra para Desarrollo Inmobiliario ITECSA"),
                Some("Playa del Carmen"), "completed", "2025-08-26T10:00:00", "2025-08-26T15:30:00",
                [Scan("1", "Scan Principal", None, "completed", Some("nave_industrial_360.mp4"), 120, 100, true,
                      "2025-08-26T10:30:00")]);
    assert Decimal(1) == "1";
  }

  method Casa() returns (p: DemoProject)
    ensures p.id == 2 && p.status == "processing" && p.scans == []
  {
    p := DemoProject(2, "Casa Residencial Tulum",
                Some("Escaneo 3D completo de propiedad residencial para documentación arquitectónica"),
                Some("Tulum, Quintana Roo"), "processing", "2025-08-25T09:00:00", "2025-08-25T14:20:00", []);
  }

  method Plaza() returns (p: DemoProject)
    ensures p.id == 3 && p.status == "draft" && p.scans == []
  {
    p := DemoProject(3, "Centro Comercial Plaza Maya", Some("Levantamiento digital de espacios comerciales para renovación"),
                Some("Cancún, Quintana Roo"), "draft", "2025-08-24T08:00:00", "2025-08-24T12:15:00", []);
  }

  /** Scans numbered "1" to "m" in order. */
  predicate NumberedScans(scans: seq<Scan>)
  {
    forall j | 0 <= j < |scans| :: scans[j].id == Decimal(j + 1)
  }

  /** The key after the last is not yet taken. */
  lemma FreshKey(order: seq<string>, n: nat)
    requires n == |order| + 1
    requires forall i | 0 <= i < |order| :: order[i] == Decimal(i + 1)
    ensures Decimal(n) !in order
  {
    if Decimal(n) in order {
      var i :| 0 <= i < |order| && order[i] == Decimal(n);
      PaddedInjective(i + 1, n, 1);
    }
  }

  /** Under the store's invariant no two scans of a project share an id. */
  lemma ScanIdsDistinct(scans: seq<Scan>)
    requires NumberedScans(scans)
    ensures forall a, b | 0 <= a < b < |scans| :: scans[a].id != scans[b].id
  {
    forall a, b | 0 <= a < b < |scans|
      ensures scans[a].id != scans[b].id
    {
      if scans[a].id == scans[b].id {
        PaddedInjective(a + 1, b + 1, 1);
      }
    }
  }

  /** Each listed card carries the key its project is stored under. */
  lemma CardIdsAreKeys(store: DemoProjectStore)
    requires store.Valid()
    ensures var cards := Cards(store.order, store.projects);
      forall i | 0 <= i < |cards| :: cards[i].id == store.order[i]
  {
  }

  /** The demo limit admits sizes up to 1 GiB inclusive, refuses anything
      larger with 413 once the project is known, and the project check
      comes first. */
  lemma UploadLimit(store: DemoProjectStore, key: string, filename: string, size: Option<nat>)
    ensures var r := store.UploadVideo(key, filename, size);
      (key !in store.projects ==> r == Refused(404, NotFound)) &&
      (key in store.projects && size.Some? && size.value > MaxVideoSize ==> r.Refused? && r.status == 413) &&
      (r.Reply? <==> key in store.projects && size.Some? && size.value <= MaxVideoSize) &&
      (r.Reply? ==> r.body.size == size.value && r.body.filename == filename)
  {
  }
}
