/** `COLMAPPipeline` of the stand-alone worker (colmap-worker/colmap_pipeline.py):
    six stages, each returning a dictionary with a `success` flag. Frames,
    features, matching and sparse reconstruction are required: the first
    failing one's dictionary is the pipeline's answer. Dense reconstruction
    and meshing are advisory: their failure leaves their keys out and the
    run still succeeds. Dictionaries are member lists in insertion order. */
module WorkerPipeline {
  import opened Wrappers
  import opened Json
  import opened Text

  // ---------------------------------------------------------------------
  // Tier branches: high, medium, and everything else as low

  /** `--SiftExtraction.max_image_size` and `--SiftExtraction.max_num_features`. */
  datatype ExtractionCaps = ExtractionCaps(maxImageSize: nat, maxNumFeatures: nat)

  function ExtractionCapsFor(quality: string): (r: ExtractionCaps)
    ensures r.maxImageSize == PatchMatchFor(quality).maxImageSize
    ensures 25 * r.maxNumFeatures == 64 * r.maxImageSize
    ensures r.maxImageSize == 800 <==> quality != "high" && quality != "medium"
  {
    if quality == "high" then ExtractionCaps(3200, 8192)
    else if quality == "medium" then ExtractionCaps(1600, 4096)
    else ExtractionCaps(800, 2048)
  }

  /** The matcher's ratio and distance thresholds (kept as the decimal text
      the command carries) and whether cross-checking is on. */
  datatype MatchingParams = MatchingParams(maxRatio: string, maxDistance: string, crossCheck: bool)

  function MatchingParamsFor(quality: string): (r: MatchingParams)
    ensures r.crossCheck <==> quality == "high" || quality == "medium"
    ensures r.maxRatio in {"0.6", "0.7", "0.8"} && r.maxDistance in {"0.7", "0.8", "0.9"}
  {
    if quality == "high" then MatchingParams("0.6", "0.7", true)
    else if quality == "medium" then MatchingParams("0.7", "0.8", true)
    else MatchingParams("0.8", "0.9", false)
  }

  /** `--PatchMatchStereo.max_image_size`, `window_radius` and `window_step`. */
  datatype PatchMatchParams = PatchMatchParams(maxImageSize: nat, windowRadius: nat, windowStep: nat)

  function PatchMatchFor(quality: string): (r: PatchMatchParams)
    ensures r.windowRadius % 2 == 1 && 5 <= r.windowRadius <= 9
    ensures r.windowStep == 1 <==> quality == "high" || quality == "medium"
  {
    if quality == "high" then PatchMatchParams(3200, 9, 1)
    else if quality == "medium" then PatchMatchParams(1600, 7, 1)
    else PatchMatchParams(800, 5, 2)
  }

  /** A tier that is neither high nor medium, unknown ones included, runs as low;
      cross-checking is off exactly there. */
  lemma OtherTiersRunAsLow(quality: string)
    requires quality != "high" && quality != "medium"
    ensures ExtractionCapsFor(quality) == ExtractionCapsFor("low")
    ensures MatchingParamsFor(quality) == MatchingParamsFor("low")
    ensures PatchMatchFor(quality) == PatchMatchFor("low")
    ensures !MatchingParamsFor(quality).crossCheck
  {
  }

  // ---------------------------------------------------------------------
  // Stages

  /** What one stage returns: `{'success': False, 'error': ...}`, or the
      stage's own success dictionary. */
  datatype StageResult =
    | StageFailed(error: string)
    | FramesDone(frameCount: nat, outputDir: string, frames: seq<string>)
    | DatabaseDone(databasePath: string)
    | OutputDone(outputPath: string, artifact: string)

  /** `extract_frames`: after ffmpeg, the `frame_*.jpg` files of the output
      directory, as the glob lists them, are counted and returned. */
  function FramesStage(ffmpeg: ToolOutcome, outDir: string, frameFiles: seq<string>): (r: StageResult)
    ensures r.StageFailed? <==> ffmpeg.ToolFail?
    ensures r.FramesDone? ==> r.frameCount == |r.frames| == |frameFiles|
    ensures r.FramesDone? ==> forall i | 0 <= i < |r.frames| :: r.frames[i] == Child(outDir, frameFiles[i])
  {
    if ffmpeg.ToolFail? then StageFailed(ffmpeg.stderr)
    else FramesDone(|frameFiles|, outDir, seq(|frameFiles|, i requires 0 <= i < |frameFiles| => Child(outDir, frameFiles[i])))
  }

  /** `feature_extraction` and `feature_matching`: the tool's exit status decides. */
  function DatabaseStage(tool: ToolOutcome, database: string): (r: StageResult)
    ensures r.StageFailed? <==> tool.ToolFail?
    ensures r.DatabaseDone? ==> r.databasePath == database
  {
    if tool.ToolFail? then StageFailed(tool.stderr)
    else DatabaseDone(database)
  }

  /** `sparse_reconstruction`: success needs the mapper's exit status AND a
      model directory `0/`; the artifact is that directory. */
  function SparseStage(mapper: ToolOutcome, outDir: string, leaves: set<string>): (r: StageResult)
    ensures !r.StageFailed? <==> mapper.ToolOk? && "0" in leaves
    ensures mapper.ToolOk? && "0" !in leaves ==> r == StageFailed("No reconstruction output generated")
  {
    if mapper.ToolFail? then StageFailed(mapper.stderr)
    else if "0" !in leaves then StageFailed("No reconstruction output generated")
    else OutputDone(outDir, Child(outDir, "0"))
  }

  /** `dense_reconstruction`: undistortion, patch-match stereo and fusion in
      turn, then `dense/fused.ply` must exist; the artifact is that cloud.
      The undistorter's outcome is an input; which model directory it reads
      is `UndistortInputAsWritten`. */
  function DenseStage(undistort: ToolOutcome, patchMatch: ToolOutcome, fusion: ToolOutcome, fusedExists: bool,
                      projectDir: string): (r: StageResult)
    ensures !r.StageFailed? <==> undistort.ToolOk? && patchMatch.ToolOk? && fusion.ToolOk? && fusedExists
    ensures undistort.ToolFail? ==> r == StageFailed(undistort.stderr)
  {
    var denseDir := Child(projectDir, "dense");
    if undistort.ToolFail? then StageFailed(undistort.stderr)
    else if patchMatch.ToolFail? then StageFailed(patchMatch.stderr)
    else if fusion.ToolFail? then StageFailed(fusion.stderr)
    else if !fusedExists then StageFailed("No dense point cloud generated")
    else OutputDone(denseDir, Child(denseDir, "fused.ply"))
  }

  /** `create_mesh`: the Poisson mesher, then `mesh/meshed-poisson.ply` must exist. */
  function MeshStage(poisson: ToolOutcome, meshExists: bool, projectDir: string): (r: StageResult)
    ensures !r.StageFailed? <==> poisson.ToolOk? && meshExists
  {
    var meshDir := Child(projectDir, "mesh");
    if poisson.ToolFail? then StageFailed(poisson.stderr)
    else if !meshExists then StageFailed("No mesh generated")
    else OutputDone(meshDir, Child(meshDir, "meshed-poisson.ply"))
  }

  // ---------------------------------------------------------------------
  // `run_complete_pipeline`

  /** The outcome of every tool, and what the file checks find. */
  datatype Outcomes = Outcomes(ffmpeg: ToolOutcome, frameFiles: seq<string>,
                               features: ToolOutcome, matcher: ToolOutcome,
                               mapper: ToolOutcome, sparseLeaves: set<string>,
                               undistort: ToolOutcome, patchMatch: ToolOutcome, fusion: ToolOutcome, fusedExists: bool,
                               poisson: ToolOutcome, meshExists: bool)

  /** The pipeline's answer: a failure carrying the failing stage's error,
      or the reconstruction with the optional dense `(dense_path, point_cloud)`
      and mesh `(mesh_path, mesh)` parts. */
  datatype PipelineResult =
    | PipelineFailed(error: string)
    | Reconstructed(sparsePath: string, frameCount: nat,
                    dense: Option<(string, string)>, mesh: Option<(string, string)>)

  predicate RequiredOk(o: Outcomes)
  {
    o.ffmpeg.ToolOk? && o.features.ToolOk? && o.matcher.ToolOk? && o.mapper.ToolOk? && "0" in o.sparseLeaves
  }

  predicate DenseOk(o: Outcomes)
  {
    o.undistort.ToolOk? && o.patchMatch.ToolOk? && o.fusion.ToolOk? && o.fusedExists
  }

  /** The error of the first required stage that fails: frames, features, matching, sparse. */
  function FirstError(o: Outcomes): (e: Option<string>)
    ensures e.None? <==> RequiredOk(o)
  {
    if o.ffmpeg.ToolFail? then Some(o.ffmpeg.stderr)
    else if o.features.ToolFail? then Some(o.features.stderr)
    else if o.matcher.ToolFail? then Some(o.matcher.stderr)
    else if o.mapper.ToolFail? then Some(o.mapper.stderr)
    else if "0" !in o.sparseLeaves then Some("No reconstruction output generated")
    else None
  }

  /** The answer a run with these requests and outcomes gives. */
  function RunResult(workspace: string, projectId: string, dense: bool, meshing: bool, o: Outcomes): PipelineResult
  {
    var projectDir := Child(workspace, projectId);
    var denseDir := Child(projectDir, "dense");
    var meshDir := Child(projectDir, "mesh");
    if FirstError(o).Some? then PipelineFailed(FirstError(o).value)
    else
      Reconstructed(Child(Child(projectDir, "sparse"), "0"), |o.frameFiles|,
                    if dense && DenseOk(o) then Some((denseDir, Child(denseDir, "fused.ply"))) else None,
                    if meshing && dense && DenseOk(o) && o.poisson.ToolOk? && o.meshExists
                    then Some((meshDir, Child(meshDir, "meshed-poisson.ply"))) else None)
  }

  /** `run_complete_pipeline` for project `projectId` under `workspace`: the
      four required stages in order, each stopping the run with its own
      failure when it fails; then the advisory dense stage when requested,
      and meshing only when requested AND the results record a dense run. */
  method RunCompletePipeline(workspace: string, projectId: string, dense: bool, meshing: bool, o: Outcomes)
    returns (results: PipelineResult)
    ensures results == RunResult(workspace, projectId, dense, meshing, o)
  {
    var projectDir := Child(workspace, projectId);
    var framesDir := Child(projectDir, "frames");
    var framesResult := FramesStage(o.ffmpeg, framesDir, o.frameFiles);
    if framesResult.StageFailed? {
      return PipelineFailed(framesResult.error);
    }
    var database := Child(projectDir, "database.db");
    var featuresResult := DatabaseStage(o.features, database);
    if featuresResult.StageFailed? {
      return PipelineFailed(featuresResult.error);
    }
    var matchingResult := DatabaseStage(o.matcher, database);
    if matchingResult.StageFailed? {
      return PipelineFailed(matchingResult.error);
    }
    var sparseResult := SparseStage(o.mapper, Child(projectDir, "sparse"), o.sparseLeaves);
    if sparseResult.StageFailed? {
      return PipelineFailed(sparseResult.error);
    }
    results := Reconstructed(sparseResult.artifact, framesResult.frameCount, None, None);
    if dense {
      var denseResult := DenseStage(o.undistort, o.patchMatch, o.fusion, o.fusedExists, projectDir);
      if !denseResult.StageFailed? {
        results := results.(dense := Some((denseResult.outputPath, denseResult.artifact)));
      }
    }
    if meshing && dense && results.dense.Some? {
      var meshResult := MeshStage(o.poisson, o.meshExists, projectDir);
      if !meshResult.StageFailed? {
        results := results.(mesh := Some((meshResult.outputPath, meshResult.artifact)));
      }
    }
  }

  // ---------------------------------------------------------------------
  // The model the undistorter reads

  /** The `--input_path` the undistorter is given as written: `0/` directly
      under the project directory. */
  function UndistortInputAsWritten(projectDir: string): (r: string)
    ensures StartsWith(r, projectDir + "/") && r != UndistortInput(projectDir)
  {
    Child(projectDir, "0")
  }

  /** The `--input_path` the undistorter evidently needs: the model
      directory the mapper wrote, `sparse/0/`. */
  function UndistortInput(projectDir: string): string
  {
    Child(Child(projectDir, "sparse"), "0")
  }

  /** As written, a successful run's model lies at `sparse/0/`, never at the
      `0/` the undistorter reads, so the dense stage reads a directory the
      run did not write. */
  lemma DenseMissesModelAsWritten(workspace: string, projectId: string, dense: bool, meshing: bool, o: Outcomes)
    requires RequiredOk(o)
    ensures RunResult(workspace, projectId, dense, meshing, o).Reconstructed?
    ensures UndistortInputAsWritten(Child(workspace, projectId)) != RunResult(workspace, projectId, dense, meshing, o).sparsePath
  {
    var pd := Child(workspace, projectId);
    assert |UndistortInputAsWritten(pd)| < |Child(Child(pd, "sparse"), "0")|;
  }

  /** Corrected, the undistorter reads exactly the model a successful run
      reports. */
  lemma DenseReadsSparseModel(workspace: string, projectId: string, dense: bool, meshing: bool, o: Outcomes)
    requires RequiredOk(o)
    ensures RunResult(workspace, projectId, dense, meshing, o).Reconstructed?
    ensures UndistortInput(Child(workspace, projectId)) == RunResult(workspace, projectId, dense, meshing, o).sparsePath
  {
  }

  // ---------------------------------------------------------------------
  // What a run's answer tells its caller

  /** The run succeeds exactly when the four required stages do: advisory
      stages never turn success into failure. */
  lemma SuccessIffRequiredStages(workspace: string, projectId: string, dense: bool, meshing: bool, o: Outcomes)
    ensures RunResult(workspace, projectId, dense, meshing, o).Reconstructed? <==> RequiredOk(o)
  {
  }

  /** On success the frame count is the number of frame files found, the
      dense part is present exactly when dense was requested and all of its
      steps succeeded, and the mesh part exactly when meshing was requested
      on top of such a dense run and the mesher succeeded. */
  lemma AdvisoryParts(workspace: string, projectId: string, dense: bool, meshing: bool, o: Outcomes)
    requires RequiredOk(o)
    ensures var r := RunResult(workspace, projectId, dense, meshing, o);
      r.Reconstructed? && r.frameCount == |o.frameFiles| &&
      (r.dense.Some? <==> dense && DenseOk(o)) &&
      (r.mesh.Some? <==> meshing && dense && DenseOk(o) && o.poisson.ToolOk? && o.meshExists) &&
      (r.mesh.Some? ==> r.dense.Some?)
  {
  }

  /** A failed run reports the FIRST failing required stage: ffmpeg's error
      hides every later one. */
  lemma FirstFailureWins(workspace: string, projectId: string, dense: bool, meshing: bool, o: Outcomes)
    requires o.ffmpeg.ToolFail?
    ensures RunResult(workspace, projectId, dense, meshing, o) == PipelineFailed(o.ffmpeg.stderr)
  {
  }

  // ---------------------------------------------------------------------
  // The dictionary the caller receives

  function Failure(error: string): seq<Member>
  {
    [Member("success", JBool(false)), Member("error", JStr(error))]
  }

  function OptionalMembers(part: Option<(string, string)>, flag: string, pathKey: string, fileKey: string): seq<Member>
  {
    if part.None? then [] else [Member(flag, JBool(true)), Member(pathKey, JStr(part.value.0)), Member(fileKey, JStr(part.value.1))]
  }

  /** The answer as the dictionary `run_complete_pipeline` returns, keys in insertion order. */
  function AsDict(r: PipelineResult): (d: seq<Member>)
    ensures |d| > 0 && d[0] == Member("success", JBool(r.Reconstructed?))
    ensures Lookup(d, "success") == Some(JBool(r.Reconstructed?))
  {
    if r.PipelineFailed? then Failure(r.error)
    else
      [Member("success", JBool(true)), Member("sparse_reconstruction", JBool(true)),
       Member("sparse_path", JStr(r.sparsePath)), Member("frame_count", JInt(r.frameCount))] +
      OptionalMembers(r.dense, "dense_reconstruction", "dense_path", "point_cloud") +
      OptionalMembers(r.mesh, "meshing", "mesh_path", "mesh")
  }

  /** The dictionary holds a point cloud exactly when the answer has a dense
      part, and a mesh exactly when it has a mesh part. */
  lemma DictKeys(r: PipelineResult)
    ensures Lookup(AsDict(r), "point_cloud").Some? <==> r.Reconstructed? && r.dense.Some?
    ensures Lookup(AsDict(r), "mesh").Some? <==> r.Reconstructed? && r.mesh.Some?
    ensures Lookup(AsDict(r), "error").Some? <==> r.PipelineFailed?
  {
    var d := AsDict(r);
    if r.Reconstructed? {
      if r.dense.Some? {
        assert d[6].key == "point_cloud";
      }
      if r.mesh.Some? {
        assert d[|d| - 1].key == "mesh";
      }
    }
  }
}
