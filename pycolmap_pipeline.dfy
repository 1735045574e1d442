/** `PyCOLMAPPipeline` of the cloud worker
    (gcp-deployment/colmap-worker/pycolmap_pipeline.py): the same
    stage-by-stage pipeline as the stand-alone worker, driven through the
    pycolmap bindings instead of the command line, with OpenCV frame
    sampling and an extra image-import stage. Five stages are required
    (frames, import, features, matching, mapping); dense reconstruction and
    meshing are advisory. The tier branches are those of the stand-alone
    worker, value for value, and the answer is the same dictionary. */
module PycolmapPipeline {
  import opened Wrappers
  import opened Sampling
  import opened Text
  import W = WorkerPipeline

  // ---------------------------------------------------------------------
  // Construction

  /** A pipeline object: its workspace directory. */
  datatype Pipeline = Pipeline(workspaceDir: string)

  const ImportMessage := "PyCOLMAP is not available. Install with: pip install pycolmap"

  /** `PyCOLMAPPipeline(workspace_dir)`: without the bindings construction raises ImportError. */
  function NewPipeline(pycolmapAvailable: bool, workspaceDir: string): (r: Result<Pipeline>)
    ensures r.Err? <==> !pycolmapAvailable
    ensures r.Err? ==> r.error == Error("ImportError", ImportMessage)
    ensures r.Ok? ==> r.value.workspaceDir == workspaceDir
  {
    if !pycolmapAvailable then Err(Error("ImportError", ImportMessage)) else Ok(Pipeline(workspaceDir))
  }

  // ---------------------------------------------------------------------
  // Stages

  /** What one stage returns: `{'success': False, 'error': ...}` or its success dictionary. */
  datatype StageResult =
    | StageFailed(error: string)
    | FramesDone(frameCount: nat, outputDir: string)
    | DatabaseDone(databasePath: string)
    | OutputDone(outputPath: string, artifact: string)

  /** How many frames `extract_frames` writes when `read()` yields `framesRead`
      frames and `int(fps / frame_rate)` is `interval`. */
  function SavedCount(framesRead: nat, interval: int): nat
  {
    if interval == 0 then 0 else |Kept(framesRead, Abs(interval))|
  }

  /** `extract_frames`: a zero interval fails on the first frame read, when
      `frame_count % frame_interval` divides by zero; otherwise the dictionary
      counts the frames written. */
  function FramesResult(framesRead: nat, interval: int, outDir: string): (r: StageResult)
    ensures r.StageFailed? <==> interval == 0 && framesRead > 0
  {
    if interval == 0 && framesRead > 0 then StageFailed(ModuloByZero)
    else FramesDone(SavedCount(framesRead, interval), outDir)
  }

  /** A non-zero interval of either sign keeps every |interval|-th frame from
      the first on: ceil(framesRead / |interval|) frames in all. */
  lemma SavedFrames(framesRead: nat, interval: int)
    requires interval != 0
    ensures SavedCount(framesRead, interval) == (framesRead + Abs(interval) - 1) / Abs(interval)
    ensures forall k :: k in Kept(framesRead, Abs(interval)) <==> 0 <= k < framesRead && k % Abs(interval) == 0
  {
    KeptCount(framesRead, Abs(interval));
    KeptMembers(framesRead, Abs(interval));
  }

  /** The frames directory the OpenCV loop writes into. */
  class FramesDir {
    var files: set<string>

    constructor ()
      ensures files == {}
    {
      files := {};
    }

    /** The `cap.read()` loop: frame k is written as the next `frame_NNNNNN.jpg`
        exactly when k % interval == 0; the counters start at 0. */
    method ExtractFrames(framesRead: nat, interval: int, outDir: string) returns (r: StageResult)
      modifies this
      ensures r == FramesResult(framesRead, interval, outDir)
      ensures files == old(files) + FrameSet(SavedCount(framesRead, interval))
    {
      var frameCount: nat := 0;
      var extracted: nat := 0;
      while frameCount < framesRead
        invariant frameCount <= framesRead
        invariant interval != 0 ==> extracted == |Kept(frameCount, Abs(interval))|
        invariant interval == 0 ==> frameCount == 0 && extracted == 0
        invariant files == old(files) + FrameSet(extracted)
      {
        if interval == 0 {
          return StageFailed(ModuloByZero);
        }
        if frameCount % Abs(interval) == 0 {
          assert FrameSet(extracted + 1) == FrameSet(extracted) + {FrameName(extracted)};
          files := files + {FrameName(extracted)};
          extracted := extracted + 1;
        }
        frameCount := frameCount + 1;
      }
      return FramesDone(extracted, outDir);
    }
  }

  /** `import_images`, `extract_features`, `match_features`: the binding call decides. */
  function DatabaseStage(call: ToolOutcome, database: string): (r: StageResult)
    ensures r.StageFailed? <==> call.ToolFail?
    ensures r.DatabaseDone? ==> r.databasePath == database
  {
    if call.ToolFail? then StageFailed(call.stderr) else DatabaseDone(database)
  }

  /** `incremental_mapping`: success needs the mapper to return AND the output
      directory to list at least one entry; the sparse path is the FIRST entry
      of that listing, whatever it is. */
  function MappingStage(mapper: ToolOutcome, outDir: string, listing: seq<string>): (r: StageResult)
    ensures !r.StageFailed? <==> mapper.ToolOk? && |listing| > 0
    ensures !r.StageFailed? ==> r == OutputDone(outDir, Child(outDir, listing[0]))
    ensures mapper.ToolOk? && listing == [] ==> r == StageFailed("No reconstruction output generated")
  {
    if mapper.ToolFail? then StageFailed(mapper.stderr)
    else if listing == [] then StageFailed("No reconstruction output generated")
    else OutputDone(outDir, Child(outDir, listing[0]))
  }

  /** `dense_reconstruction`: undistortion, patch-match stereo and fusion in
      turn, then `dense/fused.ply` must exist. */
  function DenseStage(undistort: ToolOutcome, patchMatch: ToolOutcome, fusion: ToolOutcome, fusedExists: bool,
                      projectDir: string): (r: StageResult)
    ensures !r.StageFailed? <==> undistort.ToolOk? && patchMatch.ToolOk? && fusion.ToolOk? && fusedExists
    ensures !r.StageFailed? ==> r == OutputDone(Child(projectDir, "dense"), Child(Child(projectDir, "dense"), "fused.ply"))
  {
    var denseDir := Child(projectDir, "dense");
    if undistort.ToolFail? then StageFailed(undistort.stderr)
    else if patchMatch.ToolFail? then StageFailed(patchMatch.stderr)
    else if fusion.ToolFail? then StageFailed(fusion.stderr)
    else if !fusedExists then StageFailed("No dense point cloud generated")
    else OutputDone(denseDir, Child(denseDir, "fused.ply"))
  }

  /** `create_mesh`: Poisson meshing, then `mesh/meshed-poisson.ply` must exist. */
  function MeshStage(poisson: ToolOutcome, meshExists: bool, projectDir: string): (r: StageResult)
    ensures !r.StageFailed? <==> poisson.ToolOk? && meshExists
  {
    var meshDir := Child(projectDir, "mesh");
    if poisson.ToolFail? then StageFailed(poisson.stderr)
    else if !meshExists then StageFailed("No mesh generated")
    else OutputDone(meshDir, Child(meshDir, "meshed-poisson.ply"))
  }

  // ---------------------------------------------------------------------
  // `run_complete_pipeline`

  /** What each binding call does, and what the file checks find. */
  datatype Outcomes = Outcomes(framesRead: nat, interval: int,
                               importer: ToolOutcome, features: ToolOutcome, matcher: ToolOutcome,
                               mapper: ToolOutcome, sparseListing: seq<string>,
                               undistort: ToolOutcome, patchMatch: ToolOutcome, fusion: ToolOutcome, fusedExists: bool,
                               poisson: ToolOutcome, meshExists: bool)

  /** A stage that ran, with the path it was given. */
  datatype Step =
    | ReadVideo(videoPath: string)
    | ImportImages(imagesDir: string)
    | ExtractFeatures(imagesDir: string)
    | MatchExhaustive(databasePath: string)
    | IncrementalMapping(outputDir: string)
    | DenseFrom(sparseDir: string)
    | MeshFrom(pointCloud: string)

  /** The five required stages, in the order they run. */
  function RequiredSteps(videoPath: string, projectDir: string): (s: seq<Step>)
    ensures |s| == 5
  {
    [ReadVideo(videoPath), ImportImages(Child(projectDir, "frames")), ExtractFeatures(Child(projectDir, "frames")),
     MatchExhaustive(Child(projectDir, "database.db")), IncrementalMapping(Child(projectDir, "sparse"))]
  }

  /** The index of the first required stage that fails. */
  function FirstFailing(o: Outcomes): (k: Option<nat>)
    ensures k.Some? ==> k.value < 5
  {
    if o.interval == 0 && o.framesRead > 0 then Some(0)
    else if o.importer.ToolFail? then Some(1)
    else if o.features.ToolFail? then Some(2)
    else if o.matcher.ToolFail? then Some(3)
    else if o.mapper.ToolFail? || o.sparseListing == [] then Some(4)
    else None
  }

  /** The answer and the stages run, for a project `projectId` of pipeline `p`. */
  function Run(p: Pipeline, projectId: string, videoPath: string, dense: bool, meshing: bool, o: Outcomes)
    : (r: (W.PipelineResult, seq<Step>))
    ensures var required := RequiredSteps(videoPath, Child(p.workspaceDir, projectId));
      1 <= |r.1| <= 7 && forall i | 0 <= i < |r.1| && i < 5 :: r.1[i] == required[i]
    ensures r.0.Reconstructed? <==> |r.1| >= 5 && FirstFailing(o).None?
    ensures forall i | 5 <= i < |r.1| :: r.1[i].DenseFrom? || r.1[i].MeshFrom?
  {
    var projectDir := Child(p.workspaceDir, projectId);
    var framesDir := Child(projectDir, "frames");
    var database := Child(projectDir, "database.db");
    var sparseDir := Child(projectDir, "sparse");
    var frames := FramesResult(o.framesRead, o.interval, framesDir);
    var mapping := MappingStage(o.mapper, sparseDir, o.sparseListing);
    var required := RequiredSteps(videoPath, projectDir);
    if frames.StageFailed? then (W.PipelineFailed(frames.error), required[..1])
    else if o.importer.ToolFail? then (W.PipelineFailed(o.importer.stderr), required[..2])
    else if o.features.ToolFail? then (W.PipelineFailed(o.features.stderr), required[..3])
    else if o.matcher.ToolFail? then (W.PipelineFailed(o.matcher.stderr), required[..4])
    else if mapping.StageFailed? then (W.PipelineFailed(mapping.error), required)
    else
      var denseResult := DenseStage(o.undistort, o.patchMatch, o.fusion, o.fusedExists, projectDir);
      var meshResult := MeshStage(o.poisson, o.meshExists, projectDir);
      var denseRan := dense && !denseResult.StageFailed?;
      var meshRan := meshing && denseRan && !meshResult.StageFailed?;
      (W.Reconstructed(mapping.artifact, frames.frameCount,
                       if denseRan then Some((denseResult.outputPath, denseResult.artifact)) else None,
                       if meshRan then Some((meshResult.outputPath, meshResult.artifact)) else None),
       required + (if dense then [DenseFrom(mapping.artifact)] else [])
                + (if meshing && denseRan then [MeshFrom(denseResult.artifact)] else []))
  }

  /** `run_complete_pipeline`: the five required stages in order, each
      stopping the run with its own failure; then dense reconstruction on
      the mapping's sparse path when requested, and meshing of the dense
      point cloud when requested and the results record a dense run. */
  method RunCompletePipeline(p: Pipeline, projectId: string, videoPath: string, dense: bool, meshing: bool,
                             o: Outcomes, frames: FramesDir)
    returns (results: W.PipelineResult, steps: seq<Step>)
    modifies frames
    ensures (results, steps) == Run(p, projectId, videoPath, dense, meshing, o)
    ensures frames.files == old(frames.files) + FrameSet(SavedCount(o.framesRead, o.interval))
  {
    var projectDir := Child(p.workspaceDir, projectId);
    var framesDir := Child(projectDir, "frames");
    steps := [ReadVideo(videoPath)];
    var framesResult := frames.ExtractFrames(o.framesRead, o.interval, framesDir);
    if framesResult.StageFailed? {
      assert steps == RequiredSteps(videoPath, projectDir)[..1];
      return W.PipelineFailed(framesResult.error), steps;
    }
    var database := Child(projectDir, "database.db");
    steps := steps + [ImportImages(framesDir)];
    var importResult := DatabaseStage(o.importer, database);
    if importResult.StageFailed? {
      assert steps == RequiredSteps(videoPath, projectDir)[..2];
      return W.PipelineFailed(importResult.error), steps;
    }
    steps := steps + [ExtractFeatures(framesDir)];
    var featuresResult := DatabaseStage(o.features, database);
    if featuresResult.StageFailed? {
      assert steps == RequiredSteps(videoPath, projectDir)[..3];
      return W.PipelineFailed(featuresResult.error), steps;
    }
    steps := steps + [MatchExhaustive(database)];
    var matchingResult := DatabaseStage(o.matcher, database);
    if matchingResult.StageFailed? {
      assert steps == RequiredSteps(videoPath, projectDir)[..4];
      return W.PipelineFailed(matchingResult.error), steps;
    }
    var sparseDir := Child(projectDir, "sparse");
    steps := steps + [IncrementalMapping(sparseDir)];
    var sparseResult := MappingStage(o.mapper, sparseDir, o.sparseListing);
    assert steps == RequiredSteps(videoPath, projectDir);
    if sparseResult.StageFailed? {
      return W.PipelineFailed(sparseResult.error), steps;
    }
    results := W.Reconstructed(sparseResult.artifact, framesResult.frameCount, None, None);
    ghost var required := steps;
    if dense {
      steps := steps + [DenseFrom(sparseResult.artifact)];
      var denseResult := DenseStage(o.undistort, o.patchMatch, o.fusion, o.fusedExists, projectDir);
      if !denseResult.StageFailed? {
        results := results.(dense := Some((denseResult.outputPath, denseResult.artifact)));
      }
    }
    if meshing && dense && results.dense.Some? {
      var pointCloud := results.dense.value.1;
      steps := steps + [MeshFrom(pointCloud)];
      var meshResult := MeshStage(o.poisson, o.meshExists, projectDir);
      if !meshResult.StageFailed? {
        results := results.(mesh := Some((meshResult.outputPath, meshResult.artifact)));
      }
    }
    assert steps == required + (if dense then [DenseFrom(sparseResult.artifact)] else [])
                             + (if meshing && results.dense.Some? then [MeshFrom(results.dense.value.1)] else []);
  }

  // ---------------------------------------------------------------------
  // What a run does and answers

  /** The first failing required stage's error is the answer, and no stage
      after it runs; with none failing, all five run in order. */
  lemma FirstFailureStopsRun(p: Pipeline, projectId: string, videoPath: string, dense: bool, meshing: bool, o: Outcomes)
    ensures var (r, steps) := Run(p, projectId, videoPath, dense, meshing, o);
      var required := RequiredSteps(videoPath, Child(p.workspaceDir, projectId));
      (FirstFailing(o).Some? <==> r.PipelineFailed?) &&
      (FirstFailing(o).Some? ==> steps == required[..FirstFailing(o).value + 1]) &&
      (FirstFailing(o).None? ==> steps[..5] == required)
  {
  }

  /** Dense reconstruction, when it runs, starts from the mapping's sparse
      path, the first entry of the sparse listing; meshing, when it runs,
      starts from the point cloud the dense stage reported. */
  lemma AdvisoryInputs(p: Pipeline, projectId: string, videoPath: string, dense: bool, meshing: bool, o: Outcomes)
    requires FirstFailing(o).None?
    ensures var (r, steps) := Run(p, projectId, videoPath, dense, meshing, o);
      var sparseDir := Child(Child(p.workspaceDir, projectId), "sparse");
      r.Reconstructed? && r.sparsePath == Child(sparseDir, o.sparseListing[0]) &&
      (dense <==> DenseFrom(r.sparsePath) in steps) &&
      (forall x :: MeshFrom(x) in steps ==> r.dense.Some? && x == r.dense.value.1) &&
      (r.mesh.Some? ==> r.dense.Some? && meshing)
  {
  }

  /** The answer never depends on the frame count beyond the count itself:
      it is the number of frames written. */
  lemma FrameCountReported(p: Pipeline, projectId: string, videoPath: string, dense: bool, meshing: bool, o: Outcomes)
    requires FirstFailing(o).None? && o.interval != 0
    ensures Run(p, projectId, videoPath, dense, meshing, o).0.frameCount
            == (o.framesRead + Abs(o.interval) - 1) / Abs(o.interval)
  {
    SavedFrames(o.framesRead, o.interval);
  }
}
