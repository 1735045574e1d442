/** The job side of the GPU worker service (main.py): the in-memory job map,
    `process_video_pipeline` with its progress checkpoints and failure
    record, `upload_results_to_storage`, and `download_result` with its
    containment check. The results directory and the rest of the host file
    system are one map from absolute, normalised paths (sequences of path
    components) to file or directory. */
module MainService {
  import opened Wrappers
  import opened Text
  import opened SparseModels
  import opened Json
  import DB = AppDatabase
  import opened MainProcessor
  import opened Sampling

  // ---------------------------------------------------------------------
  // Paths

  datatype Kind = File | Dir

  /** A path component that survives normalisation. */
  predicate Ordinary(c: string)
  {
    c != "" && c != "." && c != ".."
  }

  /** One name as it appears in a URL segment: ordinary, without a slash. */
  predicate Segment(c: string)
  {
    Ordinary(c) && forall i | 0 <= i < |c| :: c[i] != '/'
  }

  predicate IsNormal(p: seq<string>)
  {
    forall i | 0 <= i < |p| :: Ordinary(p[i])
  }

  /** p lies in the directory d or is d itself (`relative_to` succeeds). */
  predicate Under(p: seq<string>, d: seq<string>)
  {
    |d| <= |p| && p[..|d|] == d
  }

  /** Lexical resolution: empty and `.` components vanish, `..` drops the
      previous component and stays put at the file-system root. */
  function Normalize(p: seq<string>): (r: seq<string>)
    ensures IsNormal(r) && |r| <= |p|
  {
    if p == [] then []
    else
      var init := Normalize(p[..|p| - 1]);
      var c := p[|p| - 1];
      if c == "" || c == "." then init
      else if c == ".." then (if init == [] then [] else init[..|init| - 1])
      else init + [c]
  }

  /** `base / name` for pathlib: an absolute name replaces the base. */
  function Join(base: seq<string>, name: string): seq<string>
  {
    if |name| > 0 && name[0] == '/' then Split(name, '/') else base + Split(name, '/')
  }

  /** What pathlib keeps of a joined path: empty and `.` components are
      dropped, `..` stays for the operating system to walk. */
  function Clean(p: seq<string>): (r: seq<string>)
    ensures |r| <= |p|
  {
    if p == [] then []
    else
      var init := Clean(p[..|p| - 1]);
      var c := p[|p| - 1];
      if c == "" || c == "." then init else init + [c]
  }

  lemma {:induction false} CleanKeeps(p: seq<string>)
    requires forall i | 0 <= i < |p| :: p[i] != "" && p[i] != "."
    ensures Clean(p) == p
  {
    if p != [] {
      CleanKeeps(p[..|p| - 1]);
      assert p[..|p| - 1] + [p[|p| - 1]] == p;
    }
  }

  lemma {:induction false} NormalizeAppend(p: seq<string>, q: seq<string>)
    requires IsNormal(q)
    ensures Normalize(p + q) == Normalize(p) + q
    decreases |q|
  {
    if q == [] {
      assert p + q == p;
    } else {
      var q' := q[..|q| - 1];
      NormalizeAppend(p, q');
      assert (p + q)[..|p + q| - 1] == p + q';
      assert Normalize(p) + q' + [q[|q| - 1]] == Normalize(p) + q;
    }
  }

  lemma NormalizeNormal(p: seq<string>)
    requires IsNormal(p)
    ensures Normalize(p) == p
  {
    NormalizeAppend([], p);
    assert [] + p == p;
  }

  // ---------------------------------------------------------------------
  // The results directory

  /** An exception raised inside `upload_results_to_storage`, by the step
      it interrupts: 0 creating the job directory, 1 copying the point
      cloud, 2 writing the zip, 3 copying the sample images. */
  datatype StorageFault = NoFault | FaultAt(step: nat, message: string)

  predicate Passed(fault: StorageFault, step: nat)
  {
    fault.NoFault? || fault.step > step
  }

  function ResultUrl(jobId: string, tail: string): string
  {
    "/results/" + jobId + "/" + tail
  }

  /** The directory glob of `sparse/` finds at least one model directory. */
  predicate HasModelDir(entries: seq<Entry>)
  {
    exists i | 0 <= i < |entries| :: entries[i].isDir
  }

  /** Which cloud is published: the dense one when `dense/fused.ply` exists, else the sparse export, else none. */
  function CloudKind(fused: Option<nat>, sparsePly: Option<nat>): string
  {
    if fused.Some? then "dense" else if sparsePly.Some? then "sparse" else ""
  }

  function ErrorEntry(fault: StorageFault): Member
  {
    Member("error", JStr("Storage failed: " + (if fault.FaultAt? then fault.message else "")))
  }

  /** The results dictionary in insertion order: point cloud, model zip,
      sample images, each only when its step was reached and had something
      to store, then the error of the step that raised. */
  function CloudEntries(jobId: string, kind: string, fault: StorageFault): seq<Member>
  {
    if Passed(fault, 1) && kind != "" then
      [Member("point_cloud_url", JStr(ResultUrl(jobId, "point_cloud.ply"))), Member("point_cloud_type", JStr(kind))]
    else []
  }

  function ModelEntries(jobId: string, zip: bool, fault: StorageFault): seq<Member>
  {
    if Passed(fault, 2) && zip then [Member("sparse_model_url", JStr(ResultUrl(jobId, "sparse_model.zip")))] else []
  }

  function ImageEntries(jobId: string, samples: bool, fault: StorageFault): seq<Member>
  {
    if Passed(fault, 3) && samples then [Member("sample_images_dir", JStr(ResultUrl(jobId, "images/")))] else []
  }

  function ErrorEntries(fault: StorageFault): seq<Member>
  {
    if Passed(fault, 3) then [] else [ErrorEntry(fault)]
  }

  /** The results dictionary in insertion order: point cloud, model zip,
      sample images, each only when its step was reached and had something
      to store, then the error of the step that raised. */
  function Packaged(jobId: string, kind: string, zip: bool, samples: bool, fault: StorageFault): seq<Member>
  {
    CloudEntries(jobId, kind, fault) + ModelEntries(jobId, zip, fault) + ImageEntries(jobId, samples, fault) + ErrorEntries(fault)
  }

  lemma ChildrenDiffer(d: seq<string>, a: string, b: string)
    requires a != b
    ensures d + [a] != d + [b]
  {
    assert (d + [a])[|d|] == a;
  }

  /** `glob("*.jpg")`: every name of the directory once, in an order the
      filesystem chooses. */
  method Glob(names: set<string>) returns (listing: seq<string>)
    ensures |listing| == |names|
    ensures forall x :: x in listing <==> x in names
    ensures forall i, j | 0 <= i < j < |listing| :: listing[i] != listing[j]
  {
    listing := [];
    var rest := names;
    while rest != {}
      invariant forall x :: x in listing <==> x in names && x !in rest
      invariant rest <= names
      invariant |listing| + |rest| == |names|
      invariant forall i, j | 0 <= i < j < |listing| :: listing[i] != listing[j]
      decreases rest
    {
      var x :| x in rest;
      listing := listing + [x];
      rest := rest - {x};
    }
  }

  lemma LookupConcat(a: seq<Member>, b: seq<Member>, key: string)
    ensures Lookup(a + b, key) == if Lookup(a, key).Some? then Lookup(a, key) else Lookup(b, key)
  {
    if a != [] {
      LookupConcat(a[1..], b, key);
      assert (a + b)[1..] == a[1..] + b;
    } else {
      assert a + b == b;
    }
  }

  /** The five result keys are different strings. */
  lemma ResultKeysDiffer()
    ensures var keys := ["point_cloud_url", "point_cloud_type", "sparse_model_url", "sample_images_dir", "error"];
      forall i, j | 0 <= i < j < |keys| :: keys[i] != keys[j]
  {
    assert |"point_cloud_url"| == 15 && |"point_cloud_type"| == 16 && |"sparse_model_url"| == 16;
    assert |"sample_images_dir"| == 17 && |"error"| == 5;
    assert "point_cloud_type"[0] != "sparse_model_url"[0];
  }

  /** A lookup in four pieces joined together looks in each piece in turn. */
  lemma LookupPieces(a: seq<Member>, b: seq<Member>, c: seq<Member>, d: seq<Member>, key: string)
    ensures Lookup(a + b + c + d, key) ==
      if Lookup(a, key).Some? then Lookup(a, key)
      else if Lookup(b, key).Some? then Lookup(b, key)
      else if Lookup(c, key).Some? then Lookup(c, key)
      else Lookup(d, key)
  {
    LookupConcat(a + b + c, d, key);
    LookupConcat(a + b, c, key);
    LookupConcat(a, b, key);
  }

  /** What a reader of the results finds: the cloud type "dense" exactly
      when fused.ply was there, "sparse" when only the sparse export was;
      an "error" exactly when a step raised; and nothing recorded for a step
      the exception cut off. */
  lemma PackagedEntries(jobId: string, kind: string, zip: bool, samples: bool, fault: StorageFault)
    requires kind == "" || kind == "dense" || kind == "sparse"
    ensures var r := Packaged(jobId, kind, zip, samples, fault);
      Lookup(r, "point_cloud_type") == (if Passed(fault, 1) && kind != "" then Some(JStr(kind)) else None) &&
      Lookup(r, "point_cloud_url") == (if Passed(fault, 1) && kind != "" then Some(JStr(ResultUrl(jobId, "point_cloud.ply"))) else None) &&
      Lookup(r, "sparse_model_url") == (if Passed(fault, 2) && zip then Some(JStr(ResultUrl(jobId, "sparse_model.zip"))) else None) &&
      Lookup(r, "sample_images_dir") == (if Passed(fault, 3) && samples then Some(JStr(ResultUrl(jobId, "images/"))) else None) &&
      Lookup(r, "error") == (if Passed(fault, 3) then None else Some(JStr("Storage failed: " + fault.message)))
  {
    CloudLookups(jobId, kind, zip, samples, fault);
    OtherLookups(jobId, kind, zip, samples, fault);
  }

  lemma CloudLookups(jobId: string, kind: string, zip: bool, samples: bool, fault: StorageFault)
    requires kind == "" || kind == "dense" || kind == "sparse"
    ensures var r := Packaged(jobId, kind, zip, samples, fault);
      Lookup(r, "point_cloud_type") == (if Passed(fault, 1) && kind != "" then Some(JStr(kind)) else None) &&
      Lookup(r, "point_cloud_url") == (if Passed(fault, 1) && kind != "" then Some(JStr(ResultUrl(jobId, "point_cloud.ply"))) else None)
  {
    var cloud := CloudEntries(jobId, kind, fault);
    var model := ModelEntries(jobId, zip, fault);
    var images := ImageEntries(jobId, samples, fault);
    var error := ErrorEntries(fault);
    ResultKeysDiffer();
    LookupPieces(cloud, model, images, error, "point_cloud_type");
    LookupPieces(cloud, model, images, error, "point_cloud_url");
  }

  lemma OtherLookups(jobId: string, kind: string, zip: bool, samples: bool, fault: StorageFault)
    requires kind == "" || kind == "dense" || kind == "sparse"
    ensures var r := Packaged(jobId, kind, zip, samples, fault);
      Lookup(r, "sparse_model_url") == (if Passed(fault, 2) && zip then Some(JStr(ResultUrl(jobId, "sparse_model.zip"))) else None) &&
      Lookup(r, "sample_images_dir") == (if Passed(fault, 3) && samples then Some(JStr(ResultUrl(jobId, "images/"))) else None) &&
      Lookup(r, "error") == (if Passed(fault, 3) then None else Some(JStr("Storage failed: " + fault.message)))
  {
    ModelLookup(jobId, kind, zip, samples, fault);
    ImageLookups(jobId, kind, zip, samples, fault);
  }

  lemma ModelLookup(jobId: string, kind: string, zip: bool, samples: bool, fault: StorageFault)
    requires kind == "" || kind == "dense" || kind == "sparse"
    ensures var r := Packaged(jobId, kind, zip, samples, fault);
      Lookup(r, "sparse_model_url") == (if Passed(fault, 2) && zip then Some(JStr(ResultUrl(jobId, "sparse_model.zip"))) else None)
  {
    var cloud := CloudEntries(jobId, kind, fault);
    var model := ModelEntries(jobId, zip, fault);
    var images := ImageEntries(jobId, samples, fault);
    var error := ErrorEntries(fault);
    ResultKeysDiffer();
    LookupPieces(cloud, model, images, error, "sparse_model_url");
  }

  lemma ImageLookups(jobId: string, kind: string, zip: bool, samples: bool, fault: StorageFault)
    requires kind == "" || kind == "dense" || kind == "sparse"
    ensures var r := Packaged(jobId, kind, zip, samples, fault);
      Lookup(r, "sample_images_dir") == (if Passed(fault, 3) && samples then Some(JStr(ResultUrl(jobId, "images/"))) else None) &&
      Lookup(r, "error") == (if Passed(fault, 3) then None else Some(JStr("Storage failed: " + fault.message)))
  {
    var cloud := CloudEntries(jobId, kind, fault);
    var model := ModelEntries(jobId, zip, fault);
    var images := ImageEntries(jobId, samples, fault);
    var error := ErrorEntries(fault);
    ResultKeysDiffer();
    LookupPieces(cloud, model, images, error, "sample_images_dir");
    LookupPieces(cloud, model, images, error, "error");
  }

  /** Every key of the results appears once, as in the dictionary. */
  lemma PackagedDistinct(jobId: string, kind: string, zip: bool, samples: bool, fault: StorageFault)
    ensures DistinctKeys(Packaged(jobId, kind, zip, samples, fault))
  {
    var r := Packaged(jobId, kind, zip, samples, fault);
    ResultKeysDiffer();
    forall i, j | 0 <= i < j < |r| ensures r[i].key != r[j].key {
    }
  }

  class Storage {
    /** `STORAGE_DIR.resolve()`. */
    const root: seq<string>
    /** The host file system, results directory included. */
    var fs: map<seq<string>, Kind>

    predicate Valid()
    {
      IsNormal(root)
    }

    constructor (root: seq<string>, host: map<seq<string>, Kind>)
      requires IsNormal(root)
      ensures Valid() && this.root == root && fs == host[root := Dir]
    {
      this.root := root;
      fs := host[root := Dir];
    }

    /** `mkdir(parents=True, exist_ok=True)` on the job directory, then one file written into it. */
    method Store(jobId: string, name: string)
      modifies this
      ensures fs == old(fs)[root + [jobId] := Dir][root + [jobId, name] := File]
    {
      fs := fs[root + [jobId] := Dir][root + [jobId, name] := File];
    }

    /** Where a copied sample frame lands: `<results>/<job>/images/<name>`. */
    function SamplePath(jobId: string, name: string): (r: seq<string>)
      reads this
      ensures |r| == |root| + 3 && r[..|root|] == root && r[|root|..] == [jobId, "images", name]
    {
      root + [jobId, "images", name]
    }

    predicate IsFile(path: seq<string>)
      reads this
    {
      path in fs && fs[path] == File
    }

    /** The file-system root, or an existing directory. */
    predicate IsDir(path: seq<string>)
      reads this
    {
      path == [] || (path in fs && fs[path] == Dir)
    }

    /** Every non-empty prefix of p is an existing directory. */
    predicate DirChain(p: seq<string>)
      reads this
    {
      forall i | 0 < i <= |p| :: IsDir(p[..i])
    }

    /** The operating system can walk the joined path: every component
        before the last is reached through an existing directory, `..`
        included, so `<missing>/..` cannot be walked. */
    predicate Walkable(raw: seq<string>)
      reads this
    {
      var q := Clean(raw);
      forall i | 0 < i < |q| :: IsDir(Normalize(q[..i]))
    }

    /** `upload_results_to_storage`; the entries it records are `Packaged`,
        and it writes only inside the job's directory. */
    method UploadResults(jobId: string, p: Processor, fault: StorageFault)
      returns (results: seq<Member>, copied: seq<string>)
      modifies this
      ensures results == Packaged(jobId, CloudKind(p.fused, p.sparsePly), HasModelDir(p.sparse), p.images != {}, fault)
      ensures |copied| == if Passed(fault, 3) then Min(5, |p.images|) else 0
      ensures forall i | 0 <= i < |copied| :: copied[i] in p.images
      ensures forall i, j | 0 <= i < j < |copied| :: copied[i] != copied[j]
      ensures forall i | 0 <= i < |copied| :: IsFile(SamplePath(jobId, copied[i]))
      ensures Passed(fault, 1) && CloudKind(p.fused, p.sparsePly) != "" ==> IsFile(root + [jobId, "point_cloud.ply"])
      ensures Passed(fault, 2) && HasModelDir(p.sparse) ==> IsFile(root + [jobId, "sparse_model.zip"])
      ensures forall q | q in old(fs) && !InJob(q, jobId) :: q in fs && fs[q] == old(fs)[q]
      ensures forall q | q in fs && q !in old(fs) :: InJob(q, jobId)
    {
      var kind := CloudKind(p.fused, p.sparsePly);
      var zip := HasModelDir(p.sparse);
      WriteOutputs(jobId, kind, zip, fault);
      copied := [];
      if Passed(fault, 3) {
        var jobDir := root + [jobId];
        var cloudPath, zipPath := jobDir + ["point_cloud.ply"], jobDir + ["sparse_model.zip"];
        assert cloudPath == root + [jobId, "point_cloud.ply"] && zipPath == root + [jobId, "sparse_model.zip"];
        assert jobDir + ["images"] == root + [jobId, "images"];
        ChildrenDiffer(jobDir, "point_cloud.ply", "images");
        ChildrenDiffer(jobDir, "sparse_model.zip", "images");
        ghost var before := fs;
        copied := CopySamples(jobId, p.images);
        assert |cloudPath| == |root| + 2 && |zipPath| == |root| + 2;
        assert cloudPath in before ==> fs[cloudPath] == before[cloudPath];
        assert zipPath in before ==> fs[zipPath] == before[zipPath];
      }
      results := Packaged(jobId, kind, zip, p.images != {}, fault);
    }

    /** The directory, point-cloud and model-zip steps of the upload; a step
        runs only when no earlier step raised. */
    method WriteOutputs(jobId: string, kind: string, zip: bool, fault: StorageFault)
      modifies this
      ensures Passed(fault, 1) && kind != "" ==> IsFile(root + [jobId, "point_cloud.ply"])
      ensures Passed(fault, 2) && zip ==> IsFile(root + [jobId, "sparse_model.zip"])
      ensures forall q | q in old(fs) && |q| > |root| + 2 :: q in fs && fs[q] == old(fs)[q]
      ensures forall q | q in old(fs) && !InJob(q, jobId) :: q in fs && fs[q] == old(fs)[q]
      ensures forall q | q in fs && q !in old(fs) :: InJob(q, jobId)
    {
      var jobDir := root + [jobId];
      var cloudPath, zipPath := jobDir + ["point_cloud.ply"], jobDir + ["sparse_model.zip"];
      assert cloudPath == root + [jobId, "point_cloud.ply"] && zipPath == root + [jobId, "sparse_model.zip"];
      ChildrenDiffer(jobDir, "point_cloud.ply", "sparse_model.zip");
      if Passed(fault, 0) {
        fs := fs[jobDir := Dir];
      }
      if Passed(fault, 1) && kind != "" {
        fs := fs[cloudPath := File];
      }
      if Passed(fault, 2) && zip {
        fs := fs[zipPath := File];
      }
    }

    /** The sample-image step: the images directory is created when there
        are frames, then the first five names of the listing are copied;
        nothing else at the job level or above changes. */
    method CopySamples(jobId: string, images: set<string>) returns (copied: seq<string>)
      modifies this
      ensures |copied| == Min(5, |images|)
      ensures forall i | 0 <= i < |copied| :: copied[i] in images
      ensures forall i, j | 0 <= i < j < |copied| :: copied[i] != copied[j]
      ensures forall i | 0 <= i < |copied| :: IsFile(SamplePath(jobId, copied[i]))
      ensures forall q | q in old(fs) && |q| != |root| + 3 && q != root + [jobId, "images"] :: q in fs && fs[q] == old(fs)[q]
      ensures forall q | q in old(fs) && !InJob(q, jobId) :: q in fs && fs[q] == old(fs)[q]
      ensures forall q | q in fs && q !in old(fs) :: InJob(q, jobId)
    {
      if images != {} {
        fs := fs[root + [jobId, "images"] := Dir];
      }
      var listing := Glob(images);
      copied := listing[..Min(5, |listing|)];
      WriteSamples(jobId, copied);
    }

    /** The copy loop: each name becomes a file of the job's images
        directory; no other path changes. */
    method WriteSamples(jobId: string, names: seq<string>)
      modifies this
      ensures forall i | 0 <= i < |names| :: IsFile(SamplePath(jobId, names[i]))
      ensures forall q | q in old(fs) && |q| != |root| + 3 :: q in fs && fs[q] == old(fs)[q]
      ensures forall q | q in old(fs) && !InJob(q, jobId) :: q in fs && fs[q] == old(fs)[q]
      ensures forall q | q in fs && q !in old(fs) :: InJob(q, jobId)
    {
      for k := 0 to |names|
        invariant forall i | 0 <= i < k :: IsFile(SamplePath(jobId, names[i]))
        invariant forall q | q in old(fs) && |q| != |root| + 3 :: q in fs && fs[q] == old(fs)[q]
        invariant forall q | q in old(fs) && !InJob(q, jobId) :: q in fs && fs[q] == old(fs)[q]
        invariant forall q | q in fs && q !in old(fs) :: InJob(q, jobId)
      {
        fs := fs[SamplePath(jobId, names[k]) := File];
      }
    }

    /** `q` is the job's directory or lies under it. */
    predicate InJob(q: seq<string>, jobId: string)
    {
      |q| > |root| && q[..|root| + 1] == root + [jobId]
    }

    /** `download_result`: 404 when the path does not exist (it cannot be
        walked, or what it resolves to is absent), 400 when it is not a
        regular file, 403 when it resolves outside the results directory,
        and otherwise the file. */
    function Download(jobId: string, filename: string): (r: Reply<seq<string>>)
      reads this
      ensures var raw := Join(Join(root, jobId), filename);
        var path := Normalize(raw);
        (r.Reply? <==> Walkable(raw) && path in fs && fs[path] == File && Under(path, root)) &&
        (r.Reply? ==> r.body == path) &&
        (r == Refused(404, "File not found") <==> !Walkable(raw) || path !in fs)
    {
      var raw := Join(Join(root, jobId), filename);
      var path := Normalize(raw);
      if !Walkable(raw) || path !in fs then Refused(404, "File not found")
      else if fs[path] != File then Refused(400, "Not a file")
      else if !Under(path, root) then Refused(403, "Access denied")
      else Reply(path)
    }
  }

  /** A normal path whose prefixes are directories can be walked one
      ordinary step further. */
  lemma ChainWalkable(store: Storage, p: seq<string>, last: string)
    requires IsNormal(p) && Ordinary(last) && store.DirChain(p)
    ensures store.Walkable(p + [last])
  {
    var q := p + [last];
    CleanKeeps(q);
    forall i | 0 < i < |q|
      ensures store.IsDir(Normalize(q[..i]))
    {
      assert q[..i] == p[..i];
      NormalizeNormal(p[..i]);
    }
  }

  /** A plain file name in a plain, existing job directory is served. */
  lemma PlainNameServed(store: Storage, jobId: string, name: string)
    requires store.Valid() && Segment(jobId) && Segment(name)
    requires store.DirChain(store.root + [jobId])
    requires store.root + [jobId, name] in store.fs && store.fs[store.root + [jobId, name]] == File
    ensures store.Download(jobId, name) == Reply(store.root + [jobId, name])
  {
    SplitWithoutSeparator(jobId, '/');
    SplitWithoutSeparator(name, '/');
    assert store.root + [jobId] + [name] == store.root + [jobId, name];
    NormalizeNormal(store.root + [jobId, name]);
    ChainWalkable(store, store.root + [jobId], name);
  }

  /** Containment is checked against the results directory, not the job's
      own directory: when the job's directory and the other job's exist,
      `../<other job>/<file>` reads another job's results. */
  lemma OtherJobReadable(store: Storage, jobId: string, other: string, name: string)
    requires store.Valid() && Segment(jobId) && Segment(other) && Segment(name)
    requires store.DirChain(store.root + [jobId]) && store.IsDir(store.root + [other])
    requires store.root + [other, name] in store.fs && store.fs[store.root + [other, name]] == File
    ensures store.Download(jobId, "../" + other + "/" + name) == Reply(store.root + [other, name])
  {
    SplitWithoutSeparator(jobId, '/');
    assert Join(store.root, jobId) == store.root + [jobId];
    ParentJoin(store.root + [jobId], other, name);
    ParentNormalize(store.root, jobId, other, name);
    assert (store.root + [other, name])[..|store.root|] == store.root;
    ParentWalkable(store, jobId, other, name);
  }

  /** `<root>/<job>/../<other>/<name>` can be walked when the job's
      directory and the other directory exist. */
  lemma ParentWalkable(store: Storage, jobId: string, other: string, name: string)
    requires store.Valid() && Segment(jobId) && Segment(other) && Segment(name)
    requires store.DirChain(store.root + [jobId]) && store.IsDir(store.root + [other])
    ensures store.Walkable(store.root + [jobId] + ["..", other, name])
  {
    var root := store.root;
    var a := root + [jobId];
    var q := root + [jobId, "..", other, name];
    assert a + ["..", other, name] == q;
    CleanKeeps(q);
    ParentSteps(root, jobId, other);
    var n := |root|;
    assert store.IsDir(root) by {
      if n > 0 {
        assert a[..n] == root;
      }
    }
    forall i | 0 < i < |q|
      ensures store.IsDir(Normalize(q[..i]))
    {
      if i <= n + 1 {
        assert q[..i] == a[..i];
        NormalizeNormal(a[..i]);
      } else if i == n + 2 {
        assert q[..i] == root + [jobId, ".."];
      } else {
        assert q[..i] == root + [jobId, "..", other];
      }
    }
  }

  /** `..` after an ordinary component undoes it. */
  lemma ParentSteps(p: seq<string>, c: string, o: string)
    requires IsNormal(p) && Ordinary(c) && Ordinary(o)
    ensures Normalize(p + [c, ".."]) == p
    ensures Normalize(p + [c, "..", o]) == p + [o]
  {
    ParentStep(p, c);
    assert (p + [c, "..", o])[..|p| + 2] == p + [c, ".."];
  }

  lemma ParentStep(p: seq<string>, c: string)
    requires IsNormal(p) && Ordinary(c)
    ensures Normalize(p + [c, ".."]) == p
  {
    NormalizeNormal(p + [c]);
    assert (p + [c, ".."])[..|p| + 1] == p + [c];
    assert (p + [c])[..|p|] == p;
  }

  /** Without the job's directory, `<job>/..` cannot be walked, so
      `../<other job>/<file>` is not found, whatever exists elsewhere. */
  lemma MissingJobNotFound(store: Storage, jobId: string, other: string, name: string)
    requires store.Valid() && Segment(jobId) && Segment(other) && Segment(name)
    requires !store.IsDir(store.root + [jobId])
    ensures store.Download(jobId, "../" + other + "/" + name) == Refused(404, "File not found")
  {
    SplitWithoutSeparator(jobId, '/');
    assert Join(store.root, jobId) == store.root + [jobId];
    ParentJoin(store.root + [jobId], other, name);
    var a := store.root + [jobId];
    var q := a + ["..", other, name];
    CleanKeeps(q);
    assert q[..|a|] == a;
    NormalizeNormal(a);
    assert !store.IsDir(Normalize(q[..|a|]));
  }

  /** `a / "../<other>/<name>"` appends the three components. */
  lemma ParentJoin(a: seq<string>, other: string, name: string)
    requires Segment(other) && Segment(name)
    ensures Join(a, "../" + other + "/" + name) == a + ["..", other, name]
  {
    SplitWithoutSeparator(name, '/');
    SplitAtFirst(other, name, '/');
    SplitAtFirst("..", other + "/" + name, '/');
    var fname := "../" + other + "/" + name;
    assert fname == ".." + ['/'] + (other + ['/'] + name);
    assert fname[0] == '.';
  }

  /** `<root>/<job>/../<other>/<name>` resolves to `<root>/<other>/<name>`. */
  lemma ParentNormalize(root: seq<string>, jobId: string, other: string, name: string)
    requires IsNormal(root) && Segment(jobId) && Segment(other) && Segment(name)
    ensures Normalize(root + [jobId] + ["..", other, name]) == root + [other, name]
  {
    var a := root + [jobId];
    var b := a + [".."];
    var c := b + [other];
    var d := c + [name];
    assert d == root + [jobId] + ["..", other, name];
    NormalizeNormal(a);
    assert b[..|b| - 1] == a;
    assert Normalize(b) == root;
    assert c[..|c| - 1] == b;
    assert Normalize(c) == root + [other];
    assert d[..|d| - 1] == c;
  }

  /** An absolute file name replaces the job directory altogether; when it
      names a file outside the results directory, the reply is 403. */
  lemma AbsoluteNameRefused(store: Storage, jobId: string, dir: string, name: string)
    requires store.Valid() && Segment(jobId) && Segment(dir) && Segment(name)
    requires [dir, name] in store.fs && store.fs[[dir, name]] == File
    requires !Under([dir, name], store.root) && store.IsDir([dir])
    ensures store.Download(jobId, "/" + dir + "/" + name) == Refused(403, "Access denied")
  {
    SplitWithoutSeparator(name, '/');
    SplitAtFirst(dir, name, '/');
    SplitAtFirst("", dir + "/" + name, '/');
    var fname := "/" + dir + "/" + name;
    assert fname == "" + ['/'] + (dir + ['/'] + name);
    assert fname[0] == '/';
    var a: seq<string> := [""];
    var b := a + [dir];
    var c := b + [name];
    assert Join(Join(store.root, jobId), fname) == c;
    assert a[..0] == [];
    assert Normalize(a) == [];
    assert b[..1] == a;
    assert Normalize(b) == [dir];
    assert c[..2] == b;
    assert Normalize(c) == [dir, name];
    assert Clean(a) == [] && Clean(b) == [dir] && Clean(c) == [dir, name];
    assert [dir, name][..1] == [dir];
    NormalizeNormal([dir]);
  }

  // ---------------------------------------------------------------------
  // Jobs

  /** A job's `status`. */
  datatype Status = Pending | Processing | Completed | Failed

  function StatusName(s: Status): string
  {
    match s
    case Pending => "pending"
    case Processing => "processing"
    case Completed => "completed"
    case Failed => "failed"
  }

  /** A job's `current_stage`, in pipeline order. */
  datatype Stage = Queued | FrameExtraction | FeatureDetection | FeatureMatching | SparseReconstruction
                 | AnalyzingQuality | ExportingPointCloud | DenseReconstruction | UploadingResults | Finished

  function StageName(s: Stage): string
  {
    match s
    case Queued => "Pending"
    case FrameExtraction => "Frame Extraction"
    case FeatureDetection => "Feature Detection"
    case FeatureMatching => "Feature Matching"
    case SparseReconstruction => "Sparse Reconstruction"
    case AnalyzingQuality => "Analyzing Quality"
    case ExportingPointCloud => "Exporting Point Cloud"
    case DenseReconstruction => "Dense Reconstruction"
    case UploadingResults => "Uploading Results"
    case Finished => "Complete"
  }

  /** The exception a pipeline stage raises. */
  datatype Fault = TooFewFrames(got: nat) | ScanStatusArity | FeaturesFailed | MatchingFailed | SparseFailed | ExportFailed

  /** `str(e)`. */
  function ErrorText(e: Fault): string
  {
    match e
    case TooFewFrames(got) => "Not enough frames extracted for reconstruction (got " + Decimal(got) + ", need 15+)"
    case ScanStatusArity => "Database.update_scan_status() takes 3 positional arguments but 4 were given"
    case FeaturesFailed => "Feature extraction failed - check if images are valid and COLMAP is working"
    case MatchingFailed => "Feature matching failed - check if features were detected properly"
    case SparseFailed => "Sparse reconstruction failed - check if feature matches were sufficient"
    case ExportFailed => "Failed to export sparse model to PLY - check if reconstruction succeeded"
  }

  /** `type(e).__name__`. */
  function ErrorType(e: Fault): string
  {
    if e.ScanStatusArity? then "TypeError" else "Exception"
  }

  /** A job's `error_details`: the stage being run and the exception. */
  datatype ErrorDetails = ErrorDetails(stage: Stage, error: Fault)

  /** A job's `message`. */
  datatype Message = UploadQueued | ExtractingFrames | DetectingFeatures(frames: nat) | MatchingFeatures
                   | CreatingSparseModel | AnalyzingReconstruction | ExportingPly | CreatingDenseCloud
                   | SavingResults | ReconstructionCompleted | ProcessingFailed(error: Fault)

  function MessageText(m: Message): string
  {
    match m
    case UploadQueued => "Video uploaded, processing queued"
    case ExtractingFrames => "Extracting frames from video..."
    case DetectingFeatures(n) => "Detecting features in " + Decimal(n) + " images..."
    case MatchingFeatures => "Matching features between images (exhaustive)..."
    case CreatingSparseModel => "Creating sparse 3D model (this may take several minutes)..."
    case AnalyzingReconstruction => "Analyzing reconstruction quality..."
    case ExportingPly => "Exporting 3D model to PLY format..."
    case CreatingDenseCloud => "Creating dense point cloud (GPU)..."
    case SavingResults => "Saving results..."
    case ReconstructionCompleted => "3D reconstruction completed successfully!"
    case ProcessingFailed(e) => "Processing failed: " + ErrorText(e)
  }

  /** Python's truth value of `jobs[job_id].get("scan_id")`. */
  predicate Truthy(scanId: Option<string>)
  {
    scanId.Some? && scanId.value != ""
  }

  /** One entry of the in-memory `jobs` dictionary. The pipeline updates the
      entry in place; the identifying keys are never reassigned. */
  class JobRecord {
    const scanId: Option<string>
    const projectId: string
    const scanName: string
    const quality: string
    const createdAt: nat
    var status: Status
    var stage: Stage
    var progress: nat
    var message: Message
    var results: Option<seq<Member>>
    var stats: Option<Stats>
    var errorDetails: Option<ErrorDetails>
    /** Every value progress was set to, in order. */
    ghost var progressLog: seq<nat>

    /** The entry `upload_video` makes before the pipeline is scheduled. */
    constructor (scanId: string, projectId: string, scanName: string, quality: string, now: nat)
      ensures this.scanId == Some(scanId) && this.projectId == projectId && this.scanName == scanName
      ensures this.quality == quality && createdAt == now
      ensures status == Pending && stage == Queued && progress == 0 && message == UploadQueued
      ensures results.None? && stats.None? && errorDetails.None? && progressLog == []
    {
      this.scanId, this.projectId, this.scanName, this.quality, createdAt := Some(scanId), projectId, scanName, quality, now;
      status, stage, progress, message := Pending, Queued, 0, UploadQueued;
      results, stats, errorDetails := None, None, None;
      progressLog := [];
    }

    method Start()
      modifies this
      ensures status == Processing && stage == FrameExtraction && progress == 10
      ensures message == ExtractingFrames
      ensures results == old(results) && stats == old(stats) && errorDetails == old(errorDetails)
      ensures progressLog == old(progressLog) + [10]
    {
      status, stage, progress, message := Processing, FrameExtraction, 10, ExtractingFrames;
      progressLog := progressLog + [10];
    }

    method Enter(stage: Stage, message: Message)
      modifies this
      ensures this.stage == stage && this.message == message
      ensures status == old(status) && progress == old(progress) && results == old(results)
      ensures stats == old(stats) && errorDetails == old(errorDetails) && progressLog == old(progressLog)
    {
      this.stage, this.message := stage, message;
    }

    method Reach(progress: nat)
      modifies this
      ensures this.progress == progress && progressLog == old(progressLog) + [progress]
      ensures status == old(status) && stage == old(stage) && message == old(message)
      ensures results == old(results) && stats == old(stats) && errorDetails == old(errorDetails)
    {
      this.progress := progress;
      progressLog := progressLog + [progress];
    }

    method RecordStats(stats: Stats)
      modifies this
      ensures this.stats == Some(stats)
      ensures status == old(status) && stage == old(stage) && progress == old(progress) && message == old(message)
      ensures results == old(results) && errorDetails == old(errorDetails) && progressLog == old(progressLog)
    {
      this.stats := Some(stats);
    }

    /** The `except` branch: progress stays, the stage being run is recorded. */
    method Fail(error: Fault)
      modifies this
      ensures status == Failed && message == ProcessingFailed(error)
      ensures errorDetails == Some(ErrorDetails(old(stage), error))
      ensures stage == old(stage) && progress == old(progress) && results == old(results) && stats == old(stats)
      ensures progressLog == old(progressLog)
    {
      status, message := Failed, ProcessingFailed(error);
      errorDetails := Some(ErrorDetails(stage, error));
    }

    method Complete(results: seq<Member>)
      modifies this
      ensures status == Completed && progress == 100 && stage == Finished && message == ReconstructionCompleted
      ensures this.results == Some(results) && progressLog == old(progressLog) + [100]
      ensures stats == old(stats) && errorDetails == old(errorDetails)
    {
      status, progress, stage, message := Completed, 100, Finished, ReconstructionCompleted;
      this.results := Some(results);
      progressLog := progressLog + [100];
    }
  }

  /** The in-memory `jobs` dictionary. */
  class JobTable {
    var jobs: map<string, JobRecord>

    /** `jobs = get_jobs()`: the database layer has no `get_all_jobs`, the
        AttributeError is caught, and the map starts empty. */
    constructor ()
      ensures jobs == map[]
    {
      jobs := map[];
    }

    /** `jobs[job_id] = {...}` in `upload_video`. */
    method Queue(jobId: string, scanId: string, projectId: string, scanName: string, quality: string, now: nat)
      returns (job: JobRecord)
      modifies this
      ensures fresh(job) && jobs == old(jobs)[jobId := job]
      ensures job.scanId == Some(scanId) && job.status == Pending && job.progress == 0 && job.stage == Queued
    {
      job := new JobRecord(scanId, projectId, scanName, quality, now);
      jobs := jobs[jobId := job];
    }
  }

  // ---------------------------------------------------------------------
  // The pipeline

  /** What the external tools do during one run: the video, each COLMAP
      run's exit status, the files they leave, the counts in COLMAP's
      database, and where (if anywhere) storing the results breaks. */
  datatype StageRuns = StageRuns(
    video: Video, features: ToolOutcome, matching: ToolOutcome, mapper: ToolOutcome, models: seq<Entry>,
    converter: ToolOutcome, plyLeaves: Option<nat>,
    undistort: ToolOutcome, stereo: ToolOutcome, fusion: ToolOutcome, fusedLeaves: Option<nat>,
    counts: Option<ColmapCounts>, storageFault: StorageFault)

  /** The frame budget: smaller on a CPU-only host, larger for higher tiers. */
  function MaxFrames(cpuOnly: bool, quality: string): (n: nat)
    ensures n >= 40
  {
    if cpuOnly then (if quality == "low" then 40 else if quality == "medium" then 60 else 80)
    else (if quality == "low" then 50 else if quality == "medium" then 80 else 120)
  }

  /** Dense reconstruction is tried for medium and high on a GPU host only. */
  predicate RunsDense(quality: string, cpuOnly: bool)
  {
    (quality == "medium" || quality == "high") && !cpuOnly
  }

  /** The dense step leaves `dense/fused.ply`. */
  predicate DenseCloud(quality: string, cpuOnly: bool, runs: StageRuns)
  {
    RunsDense(quality, cpuOnly) && CompleteModels(runs.models) != [] &&
    runs.undistort.ToolOk? && runs.stereo.ToolOk? && runs.fusedLeaves.Some?
  }

  /** The progress values of a successful run. */
  function Checkpoints(dense: bool): seq<nat>
  {
    [10, 20, 40, 60, 80, 85] + (if dense then [90] else []) + [95, 100]
  }

  /** The progress values set before a failure in the given stage. */
  function ProgressBefore(stage: Stage): seq<nat>
  {
    match stage
    case FrameExtraction => [10]
    case FeatureDetection => [10, 20]
    case FeatureMatching => [10, 20, 40]
    case SparseReconstruction => [10, 20, 40, 60]
    case _ => [10, 20, 40, 60, 80, 85]
  }

  /** The first COLMAP tool run that fails, if any. */
  function ToolFailure(runs: StageRuns): Option<ErrorDetails>
  {
    if runs.features.ToolFail? then Some(ErrorDetails(FeatureDetection, FeaturesFailed))
    else if runs.matching.ToolFail? then Some(ErrorDetails(FeatureMatching, MatchingFailed))
    else if runs.mapper.ToolFail? then Some(ErrorDetails(SparseReconstruction, SparseFailed))
    else None
  }

  /** The first COLMAP stage after frame extraction that raises, if any. */
  function ColmapFailure(runs: StageRuns): Option<ErrorDetails>
  {
    if ToolFailure(runs).Some? then ToolFailure(runs)
    else if !(LargestModel(CompleteModels(runs.models)).Some? && runs.converter.ToolOk? && runs.plyLeaves.Some?) then
      Some(ErrorDetails(ExportingPointCloud, ExportFailed))
    else None
  }

  /** The first fatal step of a run, as the `except` branch records it, or
      None when the run completes. With `thumbnailAsWritten` the thumbnail
      step passes the extra path argument to the two-parameter
      `update_scan_status`. */
  function PipelineFailure(quality: string, cpuOnly: bool, runs: StageRuns, scanId: Option<string>,
                           thumbnailAsWritten: bool): Option<ErrorDetails>
  {
    var extracted := ExtractedCount(runs.video, MaxFrames(cpuOnly, quality));
    if extracted < 15 then Some(ErrorDetails(FrameExtraction, TooFewFrames(extracted)))
    else if thumbnailAsWritten && Readable(runs.video) > 0 && Truthy(scanId) then
      Some(ErrorDetails(FrameExtraction, ScanStatusArity))
    else ColmapFailure(runs)
  }

  /** Progress only grows, from 10 to 100. */
  lemma CheckpointsIncrease(dense: bool)
    ensures var c := Checkpoints(dense);
      c[0] == 10 && c[|c| - 1] == 100 && forall i, j | 0 <= i < j < |c| :: c[i] < c[j]
  {
  }

  /** A failed run's progress values are a proper prefix of the successful
      run's, so a failure never shows 100 and never moves progress back. */
  lemma FailureProgressIsPrefix(quality: string, cpuOnly: bool, runs: StageRuns, scanId: Option<string>, asWritten: bool)
    requires PipelineFailure(quality, cpuOnly, runs, scanId, asWritten).Some?
    ensures var pb := ProgressBefore(PipelineFailure(quality, cpuOnly, runs, scanId, asWritten).value.stage);
      var c := Checkpoints(RunsDense(quality, cpuOnly));
      0 < |pb| < |c| && pb == c[..|pb|] && 100 !in pb
  {
  }

  /** Fewer than 15 frames fail the run in "Frame Extraction", whatever else happens. */
  lemma TooFewFramesFail(quality: string, cpuOnly: bool, runs: StageRuns, scanId: Option<string>, asWritten: bool)
    requires ExtractedCount(runs.video, MaxFrames(cpuOnly, quality)) < 15
    ensures PipelineFailure(quality, cpuOnly, runs, scanId, asWritten).Some?
    ensures PipelineFailure(quality, cpuOnly, runs, scanId, asWritten).value.stage == FrameExtraction
  {
  }

  /** As written, every job with a scan id that gets past the 15-frame check
      has written a thumbnail, so the three-argument call raises TypeError
      and the job fails in "Frame Extraction"; with the two-argument call
      the same run completes. */
  lemma ScanJobsFailAsWritten(quality: string, cpuOnly: bool, runs: StageRuns, scanId: Option<string>)
    requires Truthy(scanId) && ExtractedCount(runs.video, MaxFrames(cpuOnly, quality)) >= 15
    requires runs.features.ToolOk? && runs.matching.ToolOk? && runs.mapper.ToolOk?
    requires CompleteModels(runs.models) != [] && runs.converter.ToolOk? && runs.plyLeaves.Some?
    ensures PipelineFailure(quality, cpuOnly, runs, scanId, true) == Some(ErrorDetails(FrameExtraction, ScanStatusArity))
    ensures PipelineFailure(quality, cpuOnly, runs, scanId, false).None?
  {
    FifteenFramesMeanThumbnail(runs.video, MaxFrames(cpuOnly, quality));
  }

  function StageJson(name: string, key: string, n: int): Json
  {
    JObj([Member("name", JStr(name)), Member("status", JStr("completed")),
          Member("duration", JStr("varies")), Member(key, JInt(n))])
  }

  /** The technical-details dictionary; each count falls back to an
      estimate from the frame count when no statistics were read. */
  function ScanTechnicalData(frameCount: nat, stats: Option<Stats>, plySize: nat, results: seq<Member>): DB.TechnicalData
  {
    var pointCount := if stats.Some? then stats.value.num3dPoints else frameCount * 500;
    var cameraCount := if stats.Some? then stats.value.numCameras else 1;
    var featureCount := if stats.Some? then stats.value.numKeypoints else frameCount * 8000;
    var matches := if stats.Some? then stats.value.numMatches else 0;
    DB.TechnicalData(
      Some(pointCount), Some(cameraCount), Some(featureCount), Some("1920x1080"), Some(plySize),
      Some(JArr([StageJson(StageName(FrameExtraction), "frames_extracted", frameCount),
                 StageJson(StageName(FeatureDetection), "features_detected", featureCount),
                 StageJson(StageName(FeatureMatching), "matches", matches),
                 StageJson(StageName(SparseReconstruction), "points", pointCount)])),
      Some(JObj(results)))
  }


  /** The scans table after `update_scan_status(scan_id, status)` for a
      truthy scan id; an unknown id updates no row. */
  function ScanStatusAfter(scans: map<string, DB.Scan>, s: Option<string>, status: string, now: nat): map<string, DB.Scan>
  {
    if Truthy(s) && s.value in scans then scans[s.value := scans[s.value].(status := status, updatedAt := now)] else scans
  }

  /** The `except` branch with its scan update. */
  method Abort(job: JobRecord, db: DB.Database, error: Fault, now: nat)
    requires db.Valid()
    modifies job, db
    ensures db.Valid()
    ensures job.status == Failed && job.message == ProcessingFailed(error)
    ensures job.errorDetails == Some(ErrorDetails(old(job.stage), error))
    ensures job.stage == old(job.stage) && job.progress == old(job.progress)
    ensures job.results == old(job.results) && job.stats == old(job.stats) && job.progressLog == old(job.progressLog)
    ensures db.users == old(db.users) && db.projects == old(db.projects) && db.details == old(db.details)
    ensures db.scans == ScanStatusAfter(old(db.scans), job.scanId, "failed", now)
  {
    job.Fail(error);
    if Truthy(job.scanId) {
      db.UpdateScanStatus(job.scanId.value, "failed", now);
    }
  }

  /** One fatal stage of the pipeline: its progress and stage are published,
      and an `Exception` raised by the stage fails the job and the scan. */
  method RunStep(job: JobRecord, db: DB.Database, progress: nat, stage: Stage, message: Message,
                 failure: Option<Fault>, now: nat)
    returns (ok: bool)
    requires db.Valid()
    modifies job, db
    ensures ok == failure.None? && db.Valid()
    ensures job.progress == progress && job.stage == stage && job.progressLog == old(job.progressLog) + [progress]
    ensures job.status == (if ok then old(job.status) else Failed)
    ensures job.message == (if ok then message else ProcessingFailed(failure.value))
    ensures job.errorDetails == (if ok then old(job.errorDetails) else Some(ErrorDetails(stage, failure.value)))
    ensures job.results == old(job.results) && job.stats == old(job.stats)
    ensures db.users == old(db.users) && db.projects == old(db.projects) && db.details == old(db.details)
    ensures db.scans == if ok then old(db.scans) else ScanStatusAfter(old(db.scans), job.scanId, "failed", now)
  {
    job.Reach(progress);
    job.Enter(stage, message);
    ok := failure.None?;
    if !ok {
      Abort(job, db, failure.value, now);
    }
  }

  /** The thumbnail is stored and the scan marked "processing", with the
      two arguments `update_scan_status` takes. */
  method StoreThumbnail(store: Storage, db: DB.Database, jobId: string, s: Option<string>, now: nat)
    requires db.Valid()
    modifies store, db
    ensures db.Valid()
    ensures store.fs == old(store.fs)[store.root + [jobId] := Dir][store.root + [jobId, "thumbnail.jpg"] := File]
    ensures db.users == old(db.users) && db.projects == old(db.projects) && db.details == old(db.details)
    ensures db.scans == ScanStatusAfter(old(db.scans), s, "processing", now)
  {
    store.Store(jobId, "thumbnail.jpg");
    if Truthy(s) {
      db.UpdateScanStatus(s.value, "processing", now);
    }
  }

  /** The frame-extraction stage: fewer than 15 frames fail the job; a saved
      thumbnail is stored and the scan marked "processing". */
  method ExtractStage(job: JobRecord, store: Storage, db: DB.Database, jobId: string, maxFrames: nat,
                      video: Video, now: nat)
    returns (ok: bool, p: Processor, frameCount: nat)
    requires db.Valid() && maxFrames > 0
    modifies job, store, db
    ensures fresh(p) && db.Valid()
    ensures frameCount == ExtractedCount(video, maxFrames) && ok == (frameCount >= 15)
    ensures p.images == FrameSet(frameCount) && p.sparse == [] && p.sparsePly.None? && p.fused.None?
    ensures job.stage == FrameExtraction && job.progress == 10 && job.progressLog == old(job.progressLog) + [10]
    ensures job.status == (if ok then Processing else Failed)
    ensures job.message == (if ok then ExtractingFrames else ProcessingFailed(TooFewFrames(frameCount)))
    ensures job.errorDetails == (if ok then old(job.errorDetails)
                                 else Some(ErrorDetails(FrameExtraction, TooFewFrames(frameCount))))
    ensures job.results == old(job.results) && job.stats == old(job.stats)
    ensures db.users == old(db.users) && db.projects == old(db.projects) && db.details == old(db.details)
    ensures db.scans == ScanStatusAfter(old(db.scans), job.scanId, if ok then "processing" else "failed", now)
  {
    job.Start();
    p := new Processor();
    frameCount := p.ExtractFrames(video, maxFrames);
    if frameCount < 15 {
      Abort(job, db, TooFewFrames(frameCount), now);
      return false, p, frameCount;
    }
    FifteenFramesMeanThumbnail(video, maxFrames);
    if p.thumbnail {
      StoreThumbnail(store, db, jobId, job.scanId, now);
    }
    ok := true;
  }

  /** Feature detection and feature matching, each fatal. */
  method FeatureStages(job: JobRecord, db: DB.Database, frameCount: nat, runs: StageRuns, now: nat)
    returns (ok: bool)
    requires db.Valid()
    modifies job, db
    ensures db.Valid()
    ensures ok <==> runs.features.ToolOk? && runs.matching.ToolOk?
    ensures db.users == old(db.users) && db.projects == old(db.projects) && db.details == old(db.details)
    ensures db.scans == if ok then old(db.scans) else ScanStatusAfter(old(db.scans), job.scanId, "failed", now)
    ensures job.results == old(job.results) && job.stats == old(job.stats)
    ensures ok ==>
      job.status == old(job.status) && job.errorDetails == old(job.errorDetails) &&
      job.progressLog == old(job.progressLog) + [20] + [40]
    ensures !ok ==>
      var f := ToolFailure(runs).value;
      job.status == Failed && job.errorDetails == ToolFailure(runs) && job.stage == f.stage &&
      job.message == ProcessingFailed(f.error) &&
      job.progressLog == old(job.progressLog) + ProgressBefore(f.stage)[1..] &&
      job.progress == ProgressBefore(f.stage)[|ProgressBefore(f.stage)| - 1]
  {
    ok := RunStep(job, db, 20, FeatureDetection, DetectingFeatures(frameCount),
                  if runs.features.ToolFail? then Some(FeaturesFailed) else None, now);
    if !ok {
      assert ToolFailure(runs).value.stage == FeatureDetection && ProgressBefore(FeatureDetection)[1..] == [20];
      return;
    }
    ok := RunStep(job, db, 40, FeatureMatching, MatchingFeatures,
                  if runs.matching.ToolFail? then Some(MatchingFailed) else None, now);
    if !ok {
      assert ToolFailure(runs).value.stage == FeatureMatching && ProgressBefore(FeatureMatching)[1..] == [20, 40];
    }
  }

  /** Feature detection, feature matching and the mapper, each fatal. */
  method ToolStages(job: JobRecord, db: DB.Database, p: Processor, frameCount: nat, runs: StageRuns, now: nat)
    returns (ok: bool)
    requires db.Valid()
    modifies job, db, p
    ensures db.Valid()
    ensures ok <==> ToolFailure(runs).None?
    ensures db.users == old(db.users) && db.projects == old(db.projects) && db.details == old(db.details)
    ensures db.scans == if ok then old(db.scans) else ScanStatusAfter(old(db.scans), job.scanId, "failed", now)
    ensures job.results == old(job.results) && job.stats == old(job.stats)
    ensures p.images == old(p.images) && p.sparsePly == old(p.sparsePly) && p.fused == old(p.fused)
    ensures ok ==>
      job.status == old(job.status) && job.stage == SparseReconstruction && job.progress == 60 &&
      job.errorDetails == old(job.errorDetails) && job.progressLog == old(job.progressLog) + [20] + [40] + [60] &&
      p.sparse == runs.models
    ensures !ok ==>
      var f := ToolFailure(runs).value;
      job.status == Failed && job.errorDetails == ToolFailure(runs) && job.stage == f.stage &&
      job.message == ProcessingFailed(f.error) &&
      job.progressLog == old(job.progressLog) + ProgressBefore(f.stage)[1..] &&
      job.progress == ProgressBefore(f.stage)[|ProgressBefore(f.stage)| - 1]
  {
    ok := FeatureStages(job, db, frameCount, runs, now);
    if !ok {
      return;
    }
    var sparseOk := p.RunSparseReconstruction(runs.mapper, runs.models);
    ok := RunStep(job, db, 60, SparseReconstruction, CreatingSparseModel,
                  if !sparseOk then Some(SparseFailed) else None, now);
    if !ok {
      assert ToolFailure(runs).value.stage == SparseReconstruction &&
             ProgressBefore(SparseReconstruction)[1..] == [20, 40, 60];
    }
  }

  /** Quality analysis (never fatal) and the sparse export (fatal). */
  method ExportStages(job: JobRecord, db: DB.Database, p: Processor, runs: StageRuns, now: nat)
    returns (ok: bool, stats: Option<Stats>)
    requires db.Valid() && p.sparse == runs.models
    modifies job, db, p
    ensures db.Valid()
    ensures ok <==> LargestModel(CompleteModels(runs.models)).Some? && runs.converter.ToolOk? && runs.plyLeaves.Some?
    ensures db.users == old(db.users) && db.projects == old(db.projects) && db.details == old(db.details)
    ensures db.scans == if ok then old(db.scans) else ScanStatusAfter(old(db.scans), job.scanId, "failed", now)
    ensures job.stage == ExportingPointCloud && job.progress == 85 && job.progressLog == old(job.progressLog) + [80] + [85]
    ensures job.results == old(job.results)
    ensures job.stats == (if runs.counts.Some? then StatsFor(runs.counts, runs.models) else old(job.stats))
    ensures stats == StatsFor(runs.counts, runs.models)
    ensures p.images == old(p.images) && p.sparse == old(p.sparse) && p.fused == old(p.fused)
    ensures ok ==> job.status == old(job.status) && job.errorDetails == old(job.errorDetails) && p.sparsePly == runs.plyLeaves
    ensures !ok ==> job.status == Failed && job.message == ProcessingFailed(ExportFailed) &&
                    job.errorDetails == Some(ErrorDetails(ExportingPointCloud, ExportFailed))
  {
    var _ := RunStep(job, db, 80, AnalyzingQuality, AnalyzingReconstruction, None, now);
    stats := p.GetReconstructionStats(runs.counts);
    if stats.Some? {
      job.RecordStats(stats.value);
    }
    var ply, _ := p.ExportSparseToPly(runs.converter, runs.plyLeaves);
    ok := RunStep(job, db, 85, ExportingPointCloud, ExportingPly,
                  if !ply then Some(ExportFailed) else None, now);
  }

  /** Dense reconstruction: tried on GPU hosts for the medium and high
      tiers only, and never fatal. */
  method DenseStage(job: JobRecord, quality: string, cpuOnly: bool, p: Processor, runs: StageRuns)
    requires p.sparse == runs.models && p.sparsePly == runs.plyLeaves && runs.plyLeaves.Some? && p.fused.None?
    modifies job, p
    ensures CloudKind(p.fused, p.sparsePly) == if DenseCloud(quality, cpuOnly, runs) then "dense" else "sparse"
    ensures p.images == old(p.images) && p.sparse == old(p.sparse) && p.sparsePly == old(p.sparsePly)
    ensures job.status == old(job.status) && job.errorDetails == old(job.errorDetails) && job.results == old(job.results)
    ensures job.stats == old(job.stats)
    ensures job.progressLog == if RunsDense(quality, cpuOnly) then old(job.progressLog) + [90] else old(job.progressLog)
  {
    if RunsDense(quality, cpuOnly) {
      job.Enter(DenseReconstruction, CreatingDenseCloud);
      job.Reach(90);
      var _ := p.RunDenseReconstruction(cpuOnly, runs.converter, runs.plyLeaves, runs.undistort, runs.stereo,
                                        runs.fusion, runs.fusedLeaves);
    }
  }

  /** `db.save_scan_technical_details` when the job has a scan id. */
  method SaveDetails(db: DB.Database, s: Option<string>, data: DB.TechnicalData, now: nat)
    requires db.Valid()
    modifies db
    ensures db.Valid()
    ensures db.users == old(db.users) && db.projects == old(db.projects)
    ensures db.scans == ScanStatusAfter(old(db.scans), s, "completed", now)
    ensures db.details == if Truthy(s) then old(db.details)[s.value := DB.RowOf(s.value, data, now)] else old(db.details)
  {
    if Truthy(s) {
      db.SaveScanTechnicalDetails(s.value, data, now);
    }
  }

  /** The upload, the technical-details row and completion. */
  method FinishStage(job: JobRecord, store: Storage, db: DB.Database, jobId: string, kind: string,
                     p: Processor, frameCount: nat, stats: Option<Stats>, runs: StageRuns, now: nat)
    requires db.Valid() && p.sparsePly == runs.plyLeaves && runs.plyLeaves.Some?
    requires kind == CloudKind(p.fused, p.sparsePly) && kind != ""
    modifies job, store, db
    ensures db.Valid()
    ensures job.status == Completed && job.progress == 100 && job.stage == Finished && job.message == ReconstructionCompleted
    ensures job.results.Some? && job.errorDetails == old(job.errorDetails) && job.stats == old(job.stats)
    ensures job.progressLog == old(job.progressLog) + [95] + [100]
    ensures Passed(runs.storageFault, 1) ==>
      Lookup(job.results.value, "point_cloud_type") == Some(JStr(kind)) &&
      store.IsFile(store.root + [jobId, "point_cloud.ply"])
    ensures db.users == old(db.users) && db.projects == old(db.projects)
    ensures db.scans == ScanStatusAfter(old(db.scans), job.scanId, "completed", now)
    ensures db.details == if Truthy(job.scanId) then old(db.details)[job.scanId.value := DB.RowOf(job.scanId.value,
                            ScanTechnicalData(frameCount, stats, runs.plyLeaves.value, job.results.value), now)]
                          else old(db.details)
  {
    job.Reach(95);
    job.Enter(UploadingResults, SavingResults);
    var results, _ := store.UploadResults(jobId, p, runs.storageFault);
    PackagedEntries(jobId, kind, HasModelDir(p.sparse), p.images != {}, runs.storageFault);
    SaveDetails(db, job.scanId, ScanTechnicalData(frameCount, stats, runs.plyLeaves.value, results), now);
    job.Complete(results);
  }

  /** A later status update of the same scan overrides an earlier one. */
  lemma ScanStatusTwice(scans: map<string, DB.Scan>, s: Option<string>, a: string, b: string, now: nat)
    ensures ScanStatusAfter(ScanStatusAfter(scans, s, a, now), s, b, now) == ScanStatusAfter(scans, s, b, now)
  {
  }

  /** The stage logs of a successful run add up to the checkpoints. */
  lemma SuccessLog(log: seq<nat>, dense: bool)
    ensures var upTo85 := log + [10] + [20] + [40] + [60] + [80] + [85];
      (if dense then upTo85 + [90] else upTo85) + [95] + [100] == log + Checkpoints(dense)
  {
  }

  /** The stage logs of a run that fails in a COLMAP stage add up to the
      progress values reached before that stage. */
  lemma FailureLog(log: seq<nat>, stage: Stage)
    ensures log + [10] + ProgressBefore(stage)[1..] == log + ProgressBefore(stage)
    ensures log + [10] + [20] + [40] + [60] + [80] + [85] == log + ProgressBefore(ExportingPointCloud)
  {
    assert ProgressBefore(stage) == [10] + ProgressBefore(stage)[1..];
  }

  /** The fatal COLMAP stages after frame extraction: the tools, then the
      quality analysis and the sparse export. */
  method ColmapStages(job: JobRecord, db: DB.Database, p: Processor, frameCount: nat, runs: StageRuns, now: nat)
    returns (ok: bool, stats: Option<Stats>)
    requires db.Valid()
    modifies job, db, p
    ensures db.Valid()
    ensures ok <==> ColmapFailure(runs).None?
    ensures db.users == old(db.users) && db.projects == old(db.projects) && db.details == old(db.details)
    ensures db.scans == if ok then old(db.scans) else ScanStatusAfter(old(db.scans), job.scanId, "failed", now)
    ensures job.results == old(job.results) && p.images == old(p.images) && p.fused == old(p.fused)
    ensures !ok ==>
      var f := ColmapFailure(runs).value;
      job.status == Failed && job.errorDetails == Some(f) && job.stage == f.stage &&
      job.message == ProcessingFailed(f.error) &&
      job.progressLog == old(job.progressLog) + ProgressBefore(f.stage)[1..] &&
      job.progress == ProgressBefore(f.stage)[|ProgressBefore(f.stage)| - 1]
    ensures ok ==>
      job.stage == ExportingPointCloud && job.errorDetails == old(job.errorDetails) &&
      job.stats == (if runs.counts.Some? then StatsFor(runs.counts, runs.models) else old(job.stats)) &&
      job.progressLog == old(job.progressLog) + [20] + [40] + [60] + [80] + [85] &&
      stats == StatsFor(runs.counts, runs.models) && p.sparse == runs.models && p.sparsePly == runs.plyLeaves
  {
    stats := None;
    ok := ToolStages(job, db, p, frameCount, runs, now);
    if !ok {
      return;
    }
    ok, stats := ExportStages(job, db, p, runs, now);
    if !ok {
      assert ProgressBefore(ExportingPointCloud)[1..] == [20] + [40] + [60] + [80] + [85];
    }
  }

  /** Every fatal stage, from frame extraction to the sparse export. */
  method RunStages(job: JobRecord, store: Storage, db: DB.Database, jobId: string, quality: string,
                   cpuOnly: bool, runs: StageRuns, now: nat)
    returns (ok: bool, p: Processor, frameCount: nat, stats: Option<Stats>)
    requires db.Valid()
    modifies job, store, db
    ensures fresh(p) && db.Valid()
    ensures ok <==> PipelineFailure(quality, cpuOnly, runs, job.scanId, false).None?
    ensures db.users == old(db.users) && db.projects == old(db.projects) && db.details == old(db.details)
    ensures db.scans == ScanStatusAfter(old(db.scans), job.scanId, if ok then "processing" else "failed", now)
    ensures job.results == old(job.results)
    ensures !ok ==>
      var f := PipelineFailure(quality, cpuOnly, runs, job.scanId, false).value;
      job.status == Failed && job.errorDetails == Some(f) && job.stage == f.stage &&
      job.message == ProcessingFailed(f.error) &&
      job.progressLog == old(job.progressLog) + ProgressBefore(f.stage) &&
      job.progress == ProgressBefore(f.stage)[|ProgressBefore(f.stage)| - 1]
    ensures ok ==>
      job.stage == ExportingPointCloud && job.errorDetails == old(job.errorDetails) &&
      job.stats == (if runs.counts.Some? then StatsFor(runs.counts, runs.models) else old(job.stats)) &&
      job.progressLog == old(job.progressLog) + [10] + [20] + [40] + [60] + [80] + [85] &&
      frameCount == ExtractedCount(runs.video, MaxFrames(cpuOnly, quality)) && stats == StatsFor(runs.counts, runs.models) &&
      p.sparse == runs.models && p.sparsePly == runs.plyLeaves && p.fused.None?
  {
    ghost var log, scans := job.progressLog, db.scans;
    ok, p, frameCount := ExtractStage(job, store, db, jobId, MaxFrames(cpuOnly, quality), runs.video, now);
    stats := None;
    if !ok {
      return;
    }
    ok, stats := ColmapStages(job, db, p, frameCount, runs, now);
    if !ok {
      FailureLog(log, job.stage);
      ScanStatusTwice(scans, job.scanId, "processing", "failed", now);
    }
  }

  /** `process_video_pipeline`, with the thumbnail step's scan update made
      with the two arguments `update_scan_status` takes: a run completes
      exactly when no fatal step fails; progress follows the checkpoints; a
      failure keeps the progress reached and records the stage; the dense
      cloud is published in preference to the sparse one; the scan row ends
      "completed" or "failed" accordingly. */
  method ProcessVideoPipeline(t: JobTable, store: Storage, db: DB.Database, jobId: string, quality: string,
                              cpuOnly: bool, runs: StageRuns, now: nat)
    requires jobId in t.jobs && db.Valid()
    modifies t.jobs[jobId], store, db
    ensures db.Valid()
    ensures db.users == old(db.users) && db.projects == old(db.projects)
    ensures var job, f := t.jobs[jobId], PipelineFailure(quality, cpuOnly, runs, t.jobs[jobId].scanId, false);
      f.None? ==>
        job.status == Completed && job.progress == 100 && job.stage == Finished && job.message == ReconstructionCompleted &&
        job.results.Some? && job.errorDetails == old(job.errorDetails) &&
        job.progressLog == old(job.progressLog) + Checkpoints(RunsDense(quality, cpuOnly)) &&
        job.stats == (if runs.counts.Some? then StatsFor(runs.counts, runs.models) else old(job.stats))
    ensures var job, f := t.jobs[jobId], PipelineFailure(quality, cpuOnly, runs, t.jobs[jobId].scanId, false);
      f.Some? ==>
        job.status == Failed && job.errorDetails == f && job.stage == f.value.stage &&
        job.message == ProcessingFailed(f.value.error) && job.results == old(job.results) &&
        job.progressLog == old(job.progressLog) + ProgressBefore(f.value.stage) &&
        job.progress == ProgressBefore(f.value.stage)[|ProgressBefore(f.value.stage)| - 1]
    ensures var job, f := t.jobs[jobId], PipelineFailure(quality, cpuOnly, runs, t.jobs[jobId].scanId, false);
      f.None? && Passed(runs.storageFault, 1) ==>
        Lookup(job.results.value, "point_cloud_type") ==
          Some(JStr(if DenseCloud(quality, cpuOnly, runs) then "dense" else "sparse")) &&
        store.IsFile(store.root + [jobId, "point_cloud.ply"])
    ensures var s := t.jobs[jobId].scanId;
      var f := PipelineFailure(quality, cpuOnly, runs, s, false);
      db.scans == ScanStatusAfter(old(db.scans), s, if f.None? then "completed" else "failed", now)
    ensures var job := t.jobs[jobId];
      var f := PipelineFailure(quality, cpuOnly, runs, job.scanId, false);
      if f.None? && Truthy(job.scanId) then
        db.details == old(db.details)[job.scanId.value := DB.RowOf(job.scanId.value,
          ScanTechnicalData(ExtractedCount(runs.video, MaxFrames(cpuOnly, quality)), StatsFor(runs.counts, runs.models),
                            runs.plyLeaves.value, job.results.value), now)]
      else db.details == old(db.details)
  {
    var job := t.jobs[jobId];
    ghost var log, scans := job.progressLog, db.scans;
    var ok, p, frameCount, stats := RunStages(job, store, db, jobId, quality, cpuOnly, runs, now);
    if !ok {
      return;
    }
    DenseStage(job, quality, cpuOnly, p, runs);
    FinishStage(job, store, db, jobId, CloudKind(p.fused, p.sparsePly), p, frameCount, stats, runs, now);
    SuccessLog(log, RunsDense(quality, cpuOnly));
    ScanStatusTwice(scans, job.scanId, "processing", "completed", now);
  }
}
