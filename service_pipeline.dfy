/** `COLMAPPipeline` of the reconstruction micro-service
    (python-colmap-service/colmap_pipeline.py): a per-tier parameter table,
    COLMAP command lines built as a fixed prefix followed by one `--key value`
    pair per table entry, and a six-step pipeline in which any failing
    command aborts the whole run. */
module ServicePipeline {
  import opened Wrappers
  import opened Text
  import opened Json

  // ---------------------------------------------------------------------
  // The `quality_params` table

  /** A table value as `str(value)` prints it: an integer, or a decimal kept as its text. */
  datatype Value = Int(n: nat) | Decimal(text: string)

  function ValueText(v: Value): string
  {
    match v
    case Int(n) => Text.Decimal(n)
    case Decimal(text) => text
  }

  datatype Param = Param(key: string, value: Value)

  /** What distinguishes the tiers. In every tier the patch-match image size
      equals the extraction image size and the window step is 1. */
  datatype Tier = Tier(maxImageSize: nat, maxNumFeatures: nat, windowRadius: nat)

  /** `quality_params`: the four tiers and nothing else. */
  function QualityParams(): map<string, Tier>
  {
    map["low" := Tier(800, 4000, 5), "medium" := Tier(1200, 8000, 7),
        "high" := Tier(1600, 12000, 9), "extreme" := Tier(2400, 20000, 11)]
  }

  /** The `feature_extraction` entries, in table order. */
  function ExtractionParams(t: Tier): seq<Param>
  {
    [Param("SiftExtraction.max_image_size", Int(t.maxImageSize)),
     Param("SiftExtraction.max_num_features", Int(t.maxNumFeatures)),
     Param("SiftExtraction.upright", Int(0))]
  }

  /** The `feature_matching` entries: the same in every tier. */
  function MatchingParams(): seq<Param>
  {
    [Param("SiftMatching.guided_matching", Int(1)),
     Param("SiftMatching.max_ratio", Decimal("0.8")),
     Param("SiftMatching.max_distance", Decimal("0.7"))]
  }

  /** The `sparse_reconstruction` entries: the same in every tier. */
  function MapperParams(): seq<Param>
  {
    [Param("Mapper.ba_refine_focal_length", Int(1)),
     Param("Mapper.ba_refine_principal_point", Int(0)),
     Param("Mapper.ba_refine_extra_params", Int(1))]
  }

  /** The `dense_reconstruction` entries. */
  function StereoParams(t: Tier): seq<Param>
  {
    [Param("PatchMatchStereo.max_image_size", Int(t.maxImageSize)),
     Param("PatchMatchStereo.window_radius", Int(t.windowRadius)),
     Param("PatchMatchStereo.window_step", Int(1))]
  }

  /** The tiers are ordered low < medium < high < extreme in image size,
      feature count and patch-match window, and no other tier exists. */
  lemma TiersOrdered()
    ensures QualityParams().Keys == {"low", "medium", "high", "extreme"}
    ensures var q := QualityParams();
      q["low"].maxImageSize < q["medium"].maxImageSize < q["high"].maxImageSize < q["extreme"].maxImageSize &&
      q["low"].maxNumFeatures < q["medium"].maxNumFeatures < q["high"].maxNumFeatures < q["extreme"].maxNumFeatures &&
      q["low"].windowRadius < q["medium"].windowRadius < q["high"].windowRadius < q["extreme"].windowRadius
  {
  }

  // ---------------------------------------------------------------------
  // Command lines

  /** `for param, value in params.items(): cmd.extend([f"--{param}", str(value)])`. */
  function Flags(params: seq<Param>): (r: seq<string>)
    ensures |r| == 2 * |params|
    ensures forall i | 0 <= i < |params| :: r[2 * i] == "--" + params[i].key && r[2 * i + 1] == ValueText(params[i].value)
  {
    if params == [] then []
    else ["--" + params[0].key, ValueText(params[0].value)] + Flags(params[1..])
  }

  lemma {:induction false} FlagsAppend(params: seq<Param>, p: Param)
    ensures Flags(params + [p]) == Flags(params) + ["--" + p.key, ValueText(p.value)]
  {
    if params != [] {
      assert (params + [p])[1..] == params[1..] + [p];
      FlagsAppend(params[1..], p);
    }
  }

  /** The loop that extends a command with a table section. */
  method AppendFlags(prefix: seq<string>, params: seq<Param>) returns (cmd: seq<string>)
    ensures cmd == prefix + Flags(params)
    ensures |cmd| == |prefix| + 2 * |params|
  {
    cmd := prefix;
    for i := 0 to |params|
      invariant cmd == prefix + Flags(params[..i])
    {
      FlagsAppend(params[..i], params[i]);
      assert params[..i + 1] == params[..i] + [params[i]];
      cmd := cmd + ["--" + params[i].key, ValueText(params[i].value)];
    }
    assert params[..|params|] == params;
  }

  /** The directories `run_full_pipeline` lays out under the output directory. */
  datatype Layout = Layout(frames: string, database: string, sparse: string, undistorted: string,
                           fused: string, mesh: string, texture: string)

  function LayoutOf(framesPath: string, outputDir: string): Layout
  {
    var workspace := Child(outputDir, "colmap_workspace");
    var dense := Child(workspace, "dense");
    Layout(framesPath, Child(workspace, "database.db"), Child(workspace, "sparse"), Child(dense, "undistorted"),
           Child(dense, "fused.ply"), Child(Child(outputDir, "meshes"), "mesh.ply"),
           Child(Child(outputDir, "textures"), "textured_mesh.obj"))
  }

  /** The fixed words of each table-driven command, before its table section. */
  function FeaturePrefix(l: Layout): seq<string>
  {
    ["colmap", "feature_extractor", "--database_path", l.database, "--image_path", l.frames,
     "--ImageReader.single_camera", "1"]
  }

  function MatchPrefix(l: Layout): seq<string>
  {
    ["colmap", "exhaustive_matcher", "--database_path", l.database]
  }

  function MapperPrefix(l: Layout): seq<string>
  {
    ["colmap", "mapper", "--database_path", l.database, "--image_path", l.frames, "--output_path", l.sparse]
  }

  function StereoPrefix(l: Layout): seq<string>
  {
    ["colmap", "patch_match_stereo", "--workspace_path", l.undistorted, "--workspace_format", "COLMAP",
     "--PatchMatchStereo.geom_consistency", "1"]
  }

  /** The feature extractor reads the frames, fills the database, and
      carries the tier's image size and feature count. */
  function FeatureCommand(t: Tier, l: Layout): (r: seq<string>)
    ensures |r| == 14 && r[..2] == ["colmap", "feature_extractor"]
    ensures r[3] == l.database && r[5] == l.frames
    ensures r[9] == Text.Decimal(t.maxImageSize) && r[11] == Text.Decimal(t.maxNumFeatures)
  {
    var flags := Flags(ExtractionParams(t));
    assert flags[3] == ValueText(ExtractionParams(t)[1].value);
    FeaturePrefix(l) + flags
  }

  /** The matcher works on the database alone, with the same thresholds in every tier. */
  function MatchCommand(l: Layout): (r: seq<string>)
    ensures |r| == 10 && r[..2] == ["colmap", "exhaustive_matcher"] && r[3] == l.database
  {
    MatchPrefix(l) + Flags(MatchingParams())
  }

  /** The mapper reads the database and the frames and writes the sparse directory. */
  function MapperCommand(l: Layout): (r: seq<string>)
    ensures |r| == 14 && r[..2] == ["colmap", "mapper"]
    ensures r[3] == l.database && r[5] == l.frames && r[7] == l.sparse
  {
    MapperPrefix(l) + Flags(MapperParams())
  }

  /** The undistorter reads the frames and the chosen model and writes the dense workspace. */
  function UndistortCommand(l: Layout, model: string): (r: seq<string>)
    ensures |r| == 10 && r[..2] == ["colmap", "image_undistorter"]
    ensures r[3] == l.frames && r[5] == model && r[7] == l.undistorted
  {
    ["colmap", "image_undistorter", "--image_path", l.frames, "--input_path", model,
     "--output_path", l.undistorted, "--output_type", "COLMAP"]
  }

  /** Patch-match stereo works in the dense workspace with the tier's image size and window. */
  function StereoCommand(t: Tier, l: Layout): (r: seq<string>)
    ensures |r| == 14 && r[..2] == ["colmap", "patch_match_stereo"] && r[3] == l.undistorted
    ensures r[9] == Text.Decimal(t.maxImageSize) && r[11] == Text.Decimal(t.windowRadius)
  {
    var flags := Flags(StereoParams(t));
    assert flags[3] == ValueText(StereoParams(t)[1].value);
    StereoPrefix(l) + flags
  }

  /** Fusion reads the dense workspace and writes the fused cloud. */
  function FusionCommand(l: Layout): (r: seq<string>)
    ensures |r| == 10 && r[..2] == ["colmap", "stereo_fusion"]
    ensures r[3] == l.undistorted && r[|r| - 1] == l.fused
  {
    ["colmap", "stereo_fusion", "--workspace_path", l.undistorted, "--workspace_format", "COLMAP",
     "--input_type", "geometric", "--output_path", l.fused]
  }

  /** The Poisson mesher reads a point cloud and writes the mesh. */
  function MeshCommand(pointCloud: string, l: Layout): (r: seq<string>)
    ensures |r| == 6 && r[..2] == ["colmap", "poisson_mesher"]
    ensures r[3] == pointCloud && r[|r| - 1] == l.mesh
  {
    ["colmap", "poisson_mesher", "--input_path", pointCloud, "--output_path", l.mesh]
  }

  /** The texture mapper reads a mesh, the frames and a model and writes the texture. */
  function TextureCommand(mesh: string, model: string, l: Layout): (r: seq<string>)
    ensures |r| == 12 && r[..2] == ["colmap", "texture_mapper"]
    ensures r[3] == mesh && r[7] == l.frames && r[9] == model && r[|r| - 1] == l.texture
  {
    ["colmap", "texture_mapper", "--input_path", mesh, "--input_type", "PLY", "--images_path", l.frames,
     "--sparse_path", model, "--output_path", l.texture]
  }

  /** Every table-driven command is its fixed prefix plus two words per table entry. */
  lemma CommandLengths(t: Tier, l: Layout)
    ensures |FeatureCommand(t, l)| == 8 + 2 * |ExtractionParams(t)| == 14
    ensures |MatchCommand(l)| == 4 + 2 * |MatchingParams()| == 10
    ensures |MapperCommand(l)| == 8 + 2 * |MapperParams()| == 14
    ensures |StereoCommand(t, l)| == 8 + 2 * |StereoParams(t)| == 14
  {
  }

  // ---------------------------------------------------------------------
  // Running commands

  /** What a command does: its return code and its stderr bytes. */
  datatype CommandRun = CommandRun(returnCode: int, stderr: string)

  /** `_run_command`: a non-zero return code raises RuntimeError carrying
      stderr, or "Unknown error" when stderr is empty. */
  function CommandError(run: CommandRun): (e: Option<Error>)
    ensures e.None? <==> run.returnCode == 0
    ensures e.Some? ==> e.value.kind == "RuntimeError"
  {
    if run.returnCode == 0 then None
    else Some(Error("RuntimeError", "COLMAP command failed: " + (if run.stderr != "" then run.stderr else "Unknown error")))
  }

  /** A failed command's message names it a COLMAP failure and carries its
      stderr, or "Unknown error" when stderr is empty. */
  lemma CommandErrorMessage(run: CommandRun)
    requires run.returnCode != 0
    ensures StartsWith(CommandError(run).value.message, "COLMAP command failed: ")
    ensures run.stderr != "" ==> EndsWith(CommandError(run).value.message, run.stderr)
    ensures run.stderr == "" ==> CommandError(run).value.message == "COLMAP command failed: Unknown error"
  {
  }

  const NoSparseModel := Error("RuntimeError", "No sparse model generated")

  /** `_sparse_reconstruction` after the mapper: the FIRST entry the sparse
      directory lists is the model, and an empty directory raises. */
  function SparseModel(sparseDir: string, listing: seq<string>): (r: Result<string>)
    ensures r.Err? <==> listing == []
    ensures r.Ok? ==> r.value == Child(sparseDir, listing[0])
  {
    if listing == [] then Err(NoSparseModel) else Ok(Child(sparseDir, listing[0]))
  }

  /** What each of the eight commands does, and what the mapper leaves. */
  datatype Runs = Runs(features: CommandRun, matcher: CommandRun, mapper: CommandRun, sparseListing: seq<string>,
                       undistort: CommandRun, stereo: CommandRun, fusion: CommandRun,
                       mesher: CommandRun, texture: CommandRun)

  function KeyError(key: string): Error
  {
    Error("KeyError", "'" + key + "'")
  }

  /** The commands of a complete run, in order. */
  function Plan(t: Tier, l: Layout, model: string): (p: seq<seq<string>>)
    ensures |p| == 8
  {
    [FeatureCommand(t, l), MatchCommand(l), MapperCommand(l), UndistortCommand(l, model),
     StereoCommand(t, l), FusionCommand(l), MeshCommand(l.fused, l), TextureCommand(l.mesh, model, l)]
  }

  function RunList(r: Runs): seq<CommandRun>
  {
    [r.features, r.matcher, r.mapper, r.undistort, r.stereo, r.fusion, r.mesher, r.texture]
  }

  /** How many commands a run issues: all eight, or up to and including the
      first that fails, or the three up to the mapper when it leaves nothing. */
  function Issued(r: Runs): (n: nat)
    ensures n <= 8
  {
    if r.features.returnCode != 0 then 1
    else if r.matcher.returnCode != 0 then 2
    else if r.mapper.returnCode != 0 || r.sparseListing == [] then 3
    else if r.undistort.returnCode != 0 then 4
    else if r.stereo.returnCode != 0 then 5
    else if r.fusion.returnCode != 0 then 6
    else if r.mesher.returnCode != 0 then 7
    else 8
  }

  /** The dictionary a complete run returns. */
  function ResultDict(l: Layout, model: string): seq<Member>
  {
    [Member("features_extracted", JStr("completed")), Member("features_matched", JStr("completed")),
     Member("sparse_model", JStr(model)), Member("dense_model", JStr(l.fused)),
     Member("mesh", JStr(l.mesh)), Member("textured_mesh", JStr(l.texture))]
  }

  /** The model directory a run's later commands name: the mapper's first
      output, or nothing when it left none (those commands then never run). */
  function ModelOf(l: Layout, listing: seq<string>): string
  {
    if listing == [] then "" else Child(l.sparse, listing[0])
  }

  /** What the eight commands answer under one tier: the first error raised,
      re-raised, or the result dictionary. */
  function TierPipeline(t: Tier, l: Layout, r: Runs): (res: Result<seq<Member>>)
    ensures res.Ok? <==> Issued(r) == 8 && r.texture.returnCode == 0
    ensures res.Err? ==> res.error.kind == "RuntimeError"
    ensures res.Ok? ==> |res.value| == 6 && res.value[2].value == JStr(ModelOf(l, r.sparseListing))
  {
    var model := SparseModel(l.sparse, r.sparseListing);
    if CommandError(r.features).Some? then Err(CommandError(r.features).value)
    else if CommandError(r.matcher).Some? then Err(CommandError(r.matcher).value)
    else if CommandError(r.mapper).Some? then Err(CommandError(r.mapper).value)
    else if model.Err? then Err(model.error)
    else if CommandError(r.undistort).Some? then Err(CommandError(r.undistort).value)
    else if CommandError(r.stereo).Some? then Err(CommandError(r.stereo).value)
    else if CommandError(r.fusion).Some? then Err(CommandError(r.fusion).value)
    else if CommandError(r.mesher).Some? then Err(CommandError(r.mesher).value)
    else if CommandError(r.texture).Some? then Err(CommandError(r.texture).value)
    else Ok(ResultDict(l, model.value))
  }

  /** What the first three steps answer: the first command error, the
      missing model, or the model directory. */
  function SparseResult(l: Layout, r: Runs): (m: Result<string>)
    ensures m.Ok? <==> Issued(r) > 3
  {
    if CommandError(r.features).Some? then Err(CommandError(r.features).value)
    else if CommandError(r.matcher).Some? then Err(CommandError(r.matcher).value)
    else if CommandError(r.mapper).Some? then Err(CommandError(r.mapper).value)
    else SparseModel(l.sparse, r.sparseListing)
  }

  /** How many of the three dense commands run: up to the first that fails. */
  function DenseIssued(undistort: CommandRun, stereo: CommandRun): (n: nat)
    ensures 1 <= n <= 3
  {
    if undistort.returnCode != 0 then 1 else if stereo.returnCode != 0 then 2 else 3
  }

  /** What `_dense_reconstruction` answers: the first command error, or the fused cloud. */
  function DenseResult(l: Layout, undistort: CommandRun, stereo: CommandRun, fusion: CommandRun): Result<string>
  {
    if CommandError(undistort).Some? then Err(CommandError(undistort).value)
    else if CommandError(stereo).Some? then Err(CommandError(stereo).value)
    else if CommandError(fusion).Some? then Err(CommandError(fusion).value)
    else Ok(l.fused)
  }

  /** What `run_full_pipeline` answers: an unknown quality is a KeyError
      before anything runs. */
  function FullPipeline(quality: string, framesPath: string, outputDir: string, r: Runs): (res: Result<seq<Member>>)
    ensures res.Err? && res.error.kind == "KeyError" <==> quality !in QualityParams()
    ensures res.Ok? ==> quality in QualityParams() && |res.value| == 6
  {
    if quality !in QualityParams() then Err(KeyError(quality))
    else TierPipeline(QualityParams()[quality], LayoutOf(framesPath, outputDir), r)
  }

  // ---------------------------------------------------------------------
  // The pipeline object

  class ColmapPipeline {
    /** `self.quality`: the key into `quality_params`. */
    var quality: string
    /** `self.max_image_size`: set, never read by the pipeline itself. */
    var maxImageSize: nat
    /** The command lines issued so far, in order. */
    var issued: seq<seq<string>>

    constructor ()
      ensures quality == "medium" && maxImageSize == 1600 && issued == []
    {
      quality, maxImageSize, issued := "medium", 1600, [];
    }

    /** `_run_command`: issue one command line and raise when it fails. */
    method RunCommand(cmd: seq<string>, run: CommandRun) returns (e: Option<Error>)
      modifies this
      ensures e == CommandError(run)
      ensures issued == old(issued) + [cmd] && quality == old(quality) && maxImageSize == old(maxImageSize)
    {
      issued := issued + [cmd];
      e := CommandError(run);
    }

    /** `run_full_pipeline`: extract, match, map, densify, mesh, texture.
        The first error is re-raised, so no partial result is ever returned,
        and no command runs after a failing one. */
    method RunFullPipeline(framesPath: string, outputDir: string, runs: Runs) returns (r: Result<seq<Member>>)
      modifies this
      ensures quality == old(quality) && maxImageSize == old(maxImageSize)
      ensures r == FullPipeline(quality, framesPath, outputDir, runs)
      ensures quality !in QualityParams() ==> issued == old(issued)
      ensures quality in QualityParams() ==>
        var l := LayoutOf(framesPath, outputDir);
        issued == old(issued) + Plan(QualityParams()[quality], l, ModelOf(l, runs.sparseListing))[..Issued(runs)]
    {
      if quality !in QualityParams() {
        return Err(KeyError(quality));
      }
      r := RunStages(QualityParams()[quality], LayoutOf(framesPath, outputDir), runs);
    }

    /** The six steps under one tier, each begun only when every earlier
        one succeeded. */
    method RunStages(t: Tier, l: Layout, runs: Runs) returns (r: Result<seq<Member>>)
      modifies this
      ensures quality == old(quality) && maxImageSize == old(maxImageSize)
      ensures r == TierPipeline(t, l, runs)
      ensures issued == old(issued) + Plan(t, l, ModelOf(l, runs.sparseListing))[..Issued(runs)]
    {
      ghost var plan := Plan(t, l, ModelOf(l, runs.sparseListing));
      ghost var before := issued;
      PlanParts(t, l, ModelOf(l, runs.sparseListing));
      var model := SparseSteps(t, l, runs);
      if model.Err? {
        return Err(model.error);
      }
      r := LaterSteps(t, l, model.value, runs);
      LogGrows(before, plan, 3, Issued(runs) - 3);
    }

    /** Steps 4 to 6 of `run_full_pipeline`, once the sparse model exists:
        the dense cloud, the mesh, the texture. */
    method LaterSteps(t: Tier, l: Layout, model: string, runs: Runs) returns (r: Result<seq<Member>>)
      requires SparseResult(l, runs) == Ok(model)
      modifies this
      ensures quality == old(quality) && maxImageSize == old(maxImageSize)
      ensures r == TierPipeline(t, l, runs)
      ensures issued == old(issued) + Plan(t, l, model)[3..Issued(runs)]
    {
      ghost var plan := Plan(t, l, model);
      ghost var before := issued;
      PlanParts(t, l, model);
      var pointCloud := DenseReconstruction(t, l, model, runs.undistort, runs.stereo, runs.fusion);
      assert plan[3..6][..DenseIssued(runs.undistort, runs.stereo)] == plan[3..3 + DenseIssued(runs.undistort, runs.stereo)];
      if pointCloud.Err? {
        return Err(pointCloud.error);
      }
      var mesh := GenerateMesh(pointCloud.value, l, runs.mesher);
      SliceGrows(plan, 3, 6, 7);
      if mesh.Err? {
        return Err(mesh.error);
      }
      var textured := TextureMesh(mesh.value, model, l, runs.texture);
      SliceGrows(plan, 3, 7, 8);
      if textured.Err? {
        return Err(textured.error);
      }
      r := Ok([Member("features_extracted", JStr("completed")), Member("features_matched", JStr("completed")),
               Member("sparse_model", JStr(model)), Member("dense_model", JStr(pointCloud.value)),
               Member("mesh", JStr(mesh.value)), Member("textured_mesh", JStr(textured.value))]);
    }

    /** Steps 1 to 3 of `run_full_pipeline`: features, matches, sparse model. */
    method SparseSteps(t: Tier, l: Layout, runs: Runs) returns (model: Result<string>)
      modifies this
      ensures quality == old(quality) && maxImageSize == old(maxImageSize)
      ensures model == SparseResult(l, runs)
      ensures issued == old(issued) + Plan(t, l, ModelOf(l, runs.sparseListing))[..Min(Issued(runs), 3)]
    {
      ghost var plan := Plan(t, l, ModelOf(l, runs.sparseListing));
      ghost var before := issued;
      PlanParts(t, l, ModelOf(l, runs.sparseListing));
      var e := ExtractFeatures(t, l, runs.features);
      LogGrows(before, plan, 0, 1);
      if e.Some? {
        return Err(e.value);
      }
      e := MatchFeatures(l, runs.matcher);
      LogGrows(before, plan, 1, 1);
      if e.Some? {
        return Err(e.value);
      }
      model := SparseReconstruction(l, runs.mapper, runs.sparseListing);
      LogGrows(before, plan, 2, 1);
    }

    /** `_extract_features`: the feature extractor over the frames, with the tier's table. */
    method ExtractFeatures(t: Tier, l: Layout, run: CommandRun) returns (e: Option<Error>)
      modifies this
      ensures quality == old(quality) && maxImageSize == old(maxImageSize)
      ensures e == CommandError(run)
      ensures issued == old(issued) + [FeatureCommand(t, l)]
    {
      var cmd := AppendFlags(FeaturePrefix(l), ExtractionParams(t));
      e := RunCommand(cmd, run);
    }

    /** `_match_features`: the exhaustive matcher over the database. */
    method MatchFeatures(l: Layout, run: CommandRun) returns (e: Option<Error>)
      modifies this
      ensures quality == old(quality) && maxImageSize == old(maxImageSize)
      ensures e == CommandError(run)
      ensures issued == old(issued) + [MatchCommand(l)]
    {
      var cmd := AppendFlags(MatchPrefix(l), MatchingParams());
      e := RunCommand(cmd, run);
    }

    /** `_sparse_reconstruction`: the mapper, then the first entry it left. */
    method SparseReconstruction(l: Layout, run: CommandRun, listing: seq<string>) returns (r: Result<string>)
      modifies this
      ensures quality == old(quality) && maxImageSize == old(maxImageSize)
      ensures r.Ok? <==> run.returnCode == 0 && listing != []
      ensures r.Ok? ==> r.value == ModelOf(l, listing)
      ensures r.Err? ==> r.error == if run.returnCode != 0 then CommandError(run).value else NoSparseModel
      ensures issued == old(issued) + [MapperCommand(l)]
    {
      var cmd := AppendFlags(MapperPrefix(l), MapperParams());
      var e := RunCommand(cmd, run);
      if e.Some? {
        return Err(e.value);
      }
      r := SparseModel(l.sparse, listing);
    }

    /** `_dense_reconstruction`: undistort, stereo, fusion; the fused cloud is the answer. */
    method DenseReconstruction(t: Tier, l: Layout, model: string, undistort: CommandRun, stereo: CommandRun,
                               fusion: CommandRun) returns (r: Result<string>)
      modifies this
      ensures quality == old(quality) && maxImageSize == old(maxImageSize)
      ensures r == DenseResult(l, undistort, stereo, fusion)
      ensures issued == old(issued) + [UndistortCommand(l, model), StereoCommand(t, l), FusionCommand(l)]
                                      [..DenseIssued(undistort, stereo)]
    {
      ghost var before := issued;
      var e := RunCommand(UndistortCommand(l, model), undistort);
      if e.Some? {
        return Err(e.value);
      }
      var cmd := AppendFlags(StereoPrefix(l), StereoParams(t));
      e := RunCommand(cmd, stereo);
      if e.Some? {
        return Err(e.value);
      }
      e := RunCommand(FusionCommand(l), fusion);
      if e.Some? {
        return Err(e.value);
      }
      r := Ok(l.fused);
    }

    /** `_generate_mesh`: the Poisson mesher over the point cloud. */
    method GenerateMesh(pointCloud: string, l: Layout, run: CommandRun) returns (r: Result<string>)
      modifies this
      ensures quality == old(quality) && maxImageSize == old(maxImageSize)
      ensures r.Ok? <==> run.returnCode == 0
      ensures r.Ok? ==> r.value == l.mesh
      ensures r.Err? ==> r.error == CommandError(run).value
      ensures issued == old(issued) + [MeshCommand(pointCloud, l)]
    {
      var e := RunCommand(MeshCommand(pointCloud, l), run);
      if e.Some? {
        return Err(e.value);
      }
      r := Ok(l.mesh);
    }

    /** `_texture_mesh`: the texture mapper over the mesh, frames and sparse model. */
    method TextureMesh(mesh: string, model: string, l: Layout, run: CommandRun) returns (r: Result<string>)
      modifies this
      ensures quality == old(quality) && maxImageSize == old(maxImageSize)
      ensures r.Ok? <==> run.returnCode == 0
      ensures r.Ok? ==> r.value == l.texture
      ensures r.Err? ==> r.error == CommandError(run).value
      ensures issued == old(issued) + [TextureCommand(mesh, model, l)]
    {
      var e := RunCommand(TextureCommand(mesh, model, l), run);
      if e.Some? {
        return Err(e.value);
      }
      r := Ok(l.texture);
    }

    /** `export_model`: PLY or OBJ in any case runs the model converter and
        answers the output path; any other format raises ValueError and
        runs nothing. */
    method ExportModel(modelPath: string, outputPath: string, format: string, run: CommandRun)
      returns (r: Result<string>)
      modifies this
      ensures quality == old(quality) && maxImageSize == old(maxImageSize)
      ensures r == ExportResult(format, outputPath, run)
      ensures Upper(format) in {"PLY", "OBJ"} ==>
        issued == old(issued) + [["colmap", "model_converter", "--input_path", modelPath,
                                  "--output_path", outputPath, "--output_type", Upper(format)]]
      ensures Upper(format) !in {"PLY", "OBJ"} ==> issued == old(issued)
    {
      var outputType: string;
      if Upper(format) == "PLY" {
        outputType := "PLY";
      } else if Upper(format) == "OBJ" {
        outputType := "OBJ";
      } else {
        return Err(Error("ValueError", "Unsupported export format: " + format));
      }
      var e := RunCommand(["colmap", "model_converter", "--input_path", modelPath,
                           "--output_path", outputPath, "--output_type", outputType], run);
      if e.Some? {
        return Err(e.value);
      }
      r := Ok(outputPath);
    }
  }

  /** The plan cut at each step's boundary. */
  lemma PlanParts(t: Tier, l: Layout, model: string)
    ensures var p := Plan(t, l, model);
      && p[0..1] == [FeatureCommand(t, l)] && p[1..2] == [MatchCommand(l)] && p[2..3] == [MapperCommand(l)]
      && p[3..6] == [UndistortCommand(l, model), StereoCommand(t, l), FusionCommand(l)]
      && p[6..7] == [MeshCommand(l.fused, l)] && p[7..8] == [TextureCommand(l.mesh, model, l)]
  {
    EightParts(Plan(t, l, model));
  }

  /** The step boundaries of any eight-command list. */
  lemma EightParts<T>(p: seq<T>)
    requires |p| == 8
    ensures p[0..1] == [p[0]] && p[1..2] == [p[1]] && p[2..3] == [p[2]]
    ensures p[3..6] == [p[3], p[4], p[5]] && p[6..7] == [p[6]] && p[7..8] == [p[7]]
  {
  }

  /** Each command of a run reads what an earlier one wrote: the database
      of the extractor, the sparse model of the mapper, the dense workspace
      of the undistorter, the fused cloud, then the mesh; extraction and
      stereo use the same image size. */
  lemma PlanDataFlow(t: Tier, l: Layout, model: string)
    ensures var p := Plan(t, l, model);
      && p[1][3] == p[0][3] && p[2][3] == p[0][3]
      && p[3][5] == model && p[7][9] == model
      && p[4][3] == p[3][7] && p[5][3] == p[3][7]
      && p[6][3] == p[5][|p[5]| - 1] && p[7][3] == p[6][|p[6]| - 1]
      && p[4][9] == p[0][9]
  {
  }

  /** Two adjacent slices of a plan make one. */
  lemma SliceGrows(plan: seq<seq<string>>, i: nat, j: nat, k: nat)
    requires i <= j <= k <= |plan|
    ensures plan[i..j] + plan[j..k] == plan[i..k]
  {
  }

  /** Issuing the next `n` planned commands extends the issued prefix by `n`. */
  lemma LogGrows(before: seq<seq<string>>, plan: seq<seq<string>>, k: nat, n: nat)
    requires k + n <= |plan|
    ensures before + plan[..k] + plan[k..k + n] == before + plan[..k + n]
  {
    assert plan[..k + n] == plan[..k] + plan[k..k + n];
  }

  /** What `export_model` answers. */
  function ExportResult(format: string, outputPath: string, run: CommandRun): (r: Result<string>)
    ensures r.Ok? <==> Upper(format) in {"PLY", "OBJ"} && run.returnCode == 0
    ensures r.Ok? ==> r.value == outputPath
    ensures r.Err? ==> r.error.kind == if Upper(format) in {"PLY", "OBJ"} then "RuntimeError" else "ValueError"
  {
    if Upper(format) !in {"PLY", "OBJ"} then Err(Error("ValueError", "Unsupported export format: " + format))
    else if CommandError(run).Some? then Err(CommandError(run).value)
    else Ok(outputPath)
  }

  // ---------------------------------------------------------------------
  // What a run answers

  /** A run succeeds exactly when the tier exists, every command returns 0 and
      the mapper leaves a model; it then reports all six steps, the sparse
      model being the first listed entry. A failed run returns nothing partial. */
  lemma RunOutcome(quality: string, framesPath: string, outputDir: string, r: Runs)
    ensures var res := FullPipeline(quality, framesPath, outputDir, r);
      res.Ok? <==> quality in QualityParams() && Issued(r) == 8 && r.texture.returnCode == 0
    ensures var res := FullPipeline(quality, framesPath, outputDir, r);
      res.Ok? ==> |res.value| == 6 && DistinctKeys(res.value) &&
                  res.value[2] == Member("sparse_model", JStr(Child(LayoutOf(framesPath, outputDir).sparse, r.sparseListing[0])))
  {
  }

  /** Every failure is a command's RuntimeError, the missing model, or the
      unknown tier's KeyError: never a success with a missing step. */
  lemma FailureKinds(quality: string, framesPath: string, outputDir: string, r: Runs)
    requires FullPipeline(quality, framesPath, outputDir, r).Err?
    ensures var e := FullPipeline(quality, framesPath, outputDir, r).error;
      e.kind == "RuntimeError" || (e == KeyError(quality) && quality !in QualityParams())
  {
  }

  /** `export_model` accepts exactly PLY and OBJ, in any letter case. */
  lemma ExportFormats(outputPath: string, run: CommandRun)
    requires run.returnCode == 0
    ensures ExportResult("ply", outputPath, run) == Ok(outputPath)
    ensures ExportResult("Obj", outputPath, run) == Ok(outputPath)
    ensures ExportResult("xyz", outputPath, run).Err?
    ensures ExportResult("xyz", outputPath, run).error.kind == "ValueError"
  {
    assert Upper("ply") == "PLY";
    assert Upper("Obj") == "OBJ";
    assert Upper("xyz") == "XYZ";
  }

  // ---------------------------------------------------------------------
  // `get_reconstruction_stats`

  datatype ReconstructionStats = ReconstructionStats(numCameras: nat, numImages: nat, numPoints: nat)

  /** The placeholder statistics: 1 camera when `cameras.bin` exists, the
      `*.jpg` count of the model directory when `images.bin` exists, and
      1000 points when `points3D.bin` exists; 0 for each missing file. */
  function ReconstructionStatsOf(files: set<string>): (s: ReconstructionStats)
    ensures s.numCameras == (if "cameras.bin" in files then 1 else 0)
    ensures s.numPoints == (if "points3D.bin" in files then 1000 else 0)
    ensures "images.bin" !in files ==> s.numImages == 0
    ensures "images.bin" in files ==> s.numImages == |JpgFiles(files)|
  {
    var jpgs := JpgFiles(files);
    ReconstructionStats(if "cameras.bin" in files then 1 else 0,
                        if "images.bin" in files then |jpgs| else 0,
                        if "points3D.bin" in files then 1000 else 0)
  }
}
