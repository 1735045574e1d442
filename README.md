# A verified model of the COLMAP reconstruction services

The repository turns an uploaded video into a 3D point cloud or mesh. It
samples frames with ffmpeg or OpenCV, then drives COLMAP through feature
extraction, feature matching, sparse reconstruction (the mapper), and
optionally dense reconstruction and meshing. Several services do this. Each
has its own job store, its own quality tiers and its own rules for which
stage failures are fatal:

- the GPU worker (`main.py`, with `COLMAPProcessor`);
- the stand-alone processor (`colmap_processor.py`);
- the COLMAP worker (`colmap-worker/`);
- the Cloud Run worker (`gcp-deployment/colmap-worker/`);
- the reconstruction micro-service (`python-colmap-service/`).

Around them sit the SQLite scan store (`database.py`), a repair script for
old reconstructions, and the FastAPI backend (`backend/app/`) over
PostgreSQL, with its project, file and job endpoints, its file service and
its demo stores.

This project models those rule systems in Dafny and proves what they
promise:

- the order of the stages and their progress checkpoints;
- which failures end a job, and what the job then records;
- the quality-tier tables and their fallbacks;
- the choice of the best sparse model;
- result packaging and the download containment check;
- the store transitions (poll, cancel, upsert, partial update, delete);
- file validation, the per-project directory layout and download dispatch.

External tools are never run in the model. Each COLMAP, ffmpeg, OpenCV or
pycolmap call is given as its outcome (success, or failure with its
stderr), together with what it leaves on disk. A directory is a listing, or
a map from file name to byte size. Mutable state keeps the source's form:
a job dictionary updated in place is a `class` whose methods say, in
`ensures`, what the new state is, and loops are `while`/`for` loops with
invariants, proved against functions that specify them.

One Dafny module stands for each source file, plus shared modules:

| module | what it holds |
|---|---|
| `Wrappers` | `Option`, `Result` and the HTTP `Reply` |
| `Text` | ASCII text operations |
| `Sampling` | frame sampling |
| `Sorting` | `sorted` by key |
| `SparseModels` | Python's `max` by key |
| `Paths` | the two file-extension rules |
| `Json` | JSON columns |
| `SqlPage` | SQL paging |
| `Tally` | counting dictionaries |
| `ProjectRows` | the backend's `projects` table |

## Model

| member | source | states |
|---|---|---|
| Sampling.KeptCount | main.py:164-169 | reading n frames with interval i keeps ceil(n / i) of them, which is the count `extract_frames` returns |
| Sampling.KeptGrows | main.py:164-169 | reading more frames never keeps fewer |
| Sampling.KeptMembers | main.py:164-169 | a frame is kept exactly when its index is a multiple of the interval, and the kept indices increase |
| Sampling.FrameNamesDistinct | main.py:165 | different counters give different `frame_{:06d}.jpg` names, so no saved frame overwrites another |
| Sampling.FfmpegFrames | colmap-worker/colmap_pipeline.py:43-48 | the files ffmpeg's `frame_%06d.jpg` pattern writes for n frames are exactly `frame_000001.jpg` to the n-th name |
| Sampling.FfmpegFramesCount | colmap-worker/colmap_pipeline.py:54-55 | n frames give n different files, so the glob count equals the number of frames |
| SparseModels.CompleteModels | main.py:345-351 | the candidates are exactly the listed directories holding both `cameras.bin` and `points3D.bin`, in listing order |
| SparseModels.FirstMaxIndex | main.py:359 | `max(..., key=...)` picks a largest key, and the first one among equals |
| SparseModels.LargestModel | main.py:354-360 | no model exactly when there is no candidate; otherwise a candidate whose `points3D.bin` is at least as large as every other's, the first such in listing order |
| Sorting.SortByCorrect | colmap_processor.py:317 | `sorted(...)` of directory entries gives an ordering by name that is a permutation of its input |
| Sorting.SortByIgnoresInputOrder | colmap_processor.py:317 | with unique names, the sorted list does not depend on the order the directory was listed in |
| Sorting.SortedUnique | colmap_processor.py:317 | two name-ordered arrangements of the same entries with unique names are equal |
| Sorting.SortNewestFirst | database.py:183 | `ORDER BY ... DESC`: every wanted row key once, with non-increasing timestamps (also database.py:234) |
| Processor.UnknownTierIsMedium | colmap_processor.py:65-70 | an unknown tier gets exactly the medium scale, feature caps and match cap (also colmap_processor.py:105-120, colmap_processor.py:174-179) |
| Processor.ScaleWidth | colmap_processor.py:65-70 | the ffmpeg width is 1280 exactly for low, 3840 exactly for high, and 1920 for medium and every unknown tier |
| Processor.FeatureCapsFor | colmap_processor.py:105-120 | the feature cap is eight times the image-size cap, the image-size cap is never below the frame width of the same tier, and it is 4096 exactly for medium and unknown tiers |
| Processor.MatchCapFor | colmap_processor.py:174-179 | the match cap is twice the feature cap of the same tier, unknown tiers included |
| Processor.MatcherFor | colmap_processor.py:181-210 | the sequential matcher exactly for the type "sequential", the exhaustive matcher for every other type |
| Processor.TiersIncrease | colmap_processor.py:65-69 | every cap grows strictly from low to medium to high (also colmap_processor.py:105-118, colmap_processor.py:174-178) |
| Processor.DigitEntries | colmap_processor.py:317 | `glob("[0-9]*")` keeps exactly the entries whose name starts with a digit |
| Processor.ScanFindsFirstLargest | colmap_processor.py:322-334 | the loop ends on a largest point count and the first candidate holding it, and on the first candidate when every count is 0 |
| Processor.BestModel | colmap_processor.py:317-320 | no model exactly when no entry matches `[0-9]*` |
| Processor.BestModelIsLargest | colmap_processor.py:317-343 | the chosen entry matches `[0-9]*`, has a largest count, sorts first among equals, and the stats report the candidate count, the point count and its name |
| Processor.BestModelIgnoresListingOrder | colmap_processor.py:317 | the same directory listed in another order yields the same model |
| Processor.FeatureStatsOf | colmap_processor.py:345-390 | the average is present exactly when the database counts exist with images > 0, and is then keypoints // images; the database counts override the `*.jpg` count |
| Processor.Readings | colmap_processor.py:402-411 | one reading per output line, present exactly on a line with "Matched", "pairs" and a number |
| Processor.LastSomeIsLast | colmap_processor.py:403-411 | the kept reading is the last one present, none when there is none |
| Processor.LastPairsIsLast | colmap_processor.py:403-411 | `matched_pairs` is absent when no line reports pairs and otherwise comes from a pairs line after which no other follows |
| Processor.MatchStatsOf | colmap_processor.py:392-431 | the status is "success" exactly when the output mentions "Database"; the verified count is present exactly when the database answered and is then its count; the matched count is absent exactly when no line reports pairs, and otherwise read from a pairs line no other follows |
| Processor.Workspace.constructor | colmap_processor.py:21-45 | creating the workspace keeps what its directories already hold |
| Processor.Workspace.ExtractFrames | colmap_processor.py:49-95 | a failing ffmpeg re-raises and leaves the images; otherwise the numbered frames are added and the `*.jpg` count returned |
| Processor.Workspace.ParseFeatureStats | colmap_processor.py:345-390 | the line loop computes exactly the statistics `FeatureStatsOf` specifies |
| Processor.Workspace.ParseMatchStats | colmap_processor.py:392-431 | the line loop computes exactly the statistics `MatchStatsOf` specifies |
| Processor.Workspace.ExtractFeatures | colmap_processor.py:146-156 | the tool's failure is re-raised, its success read as statistics |
| Processor.Workspace.MatchFeatures | colmap_processor.py:228-238 | the tool's failure is re-raised, its success read as statistics |
| Processor.Workspace.FindBestModel | colmap_processor.py:307-343 | the loop over the sorted candidates returns `BestModel` of the sparse listing |
| Processor.Workspace.SparseReconstruction | colmap_processor.py:240-272 | a failed mapper re-raises and leaves `sparse/`; otherwise the new listing's best model path and stats |
| Processor.Workspace.ExportPointCloud | colmap_processor.py:274-305 | ValueError without a model, the converter's error, or `point_cloud.<format lower-cased>` in the job root |
| Processor.ProcessVideoToPointcloud | colmap_processor.py:434-468 | the first raising step's error, or the full report with the frame count, both statistics, the model and `point_cloud.ply` |
| Processor.RunFailure | colmap_processor.py:434-468 | the run raises nothing exactly when every tool succeeds and a model exists; what it raises is a `CalledProcessError` or a `ValueError`, the latter exactly when the tools up to the mapper succeed and no entry is digit-named |
| Processor.ReportOf | colmap_processor.py:461-468 | the report names the job, counts the frames, points at `point_cloud.ply` in the workspace, and gives the path and point count of a digit-named model no other outsizes |
| Processor.PipelineDefaults | colmap_processor.py:447-453 | the pipeline always matches sequentially at the medium cap and scales frames to 1920 pixels |
| MainProcessor.UnknownTierIsHigh | main.py:187-198 | any quality name other than "low" and "medium", whether known or not, gets the high settings for both extraction and matching (also main.py:241-255) |
| MainProcessor.FeatureSettings | main.py:187-198 | 12 threads in every tier, eight features per pixel of the image-size cap, caps between 2048 and 8192, and the 8192 cap exactly for every tier other than low and medium |
| MainProcessor.MatchSettings | main.py:241-255 | always the exhaustive matcher with cross-check and guided matching, with a match cap four times the same tier's feature cap |
| MainProcessor.TiersDouble | main.py:187-198 | from low to medium to high, the image size cap, the feature cap and the match cap each double; matching is always exhaustive, with cross-check and guided matching (also main.py:241-255) |
| MainProcessor.Interval | main.py:136 | the sampling interval is at least 1, and it equals frame_count // max_frames once that quotient is at least 1 |
| MainProcessor.ExtractedFrames | main.py:136-169 | frame k is written exactly when k is a multiple of the interval, and the number written is ceil(frames read / interval) |
| MainProcessor.NothingFromUnopenedVideo | main.py:142-145 | a video that does not open yields no frames |
| MainProcessor.FifteenFramesMeanThumbnail | main.py:147-162 | a run that reaches the 15 frames a job needs has read a first frame, so a thumbnail was written (also main.py:569-570) |
| MainProcessor.StrictBest | main.py:509-514 | the statistics scan picks an index of the listing, and that directory holds points3D.bin |
| MainProcessor.MaxPointsSize | main.py:509-514 | the maximum is at least every listed points3D.bin size, and a positive maximum is attained |
| MainProcessor.StrictBestIsFirstLargest | main.py:506-514 | the strict scan finds nothing exactly when every size is 0, and otherwise finds the FIRST directory of largest size |
| MainProcessor.PointEstimate | main.py:517-521 | the 3D point count is the largest size floor-divided by 43 |
| MainProcessor.StatsFor | main.py:480-541 | the statistics are None exactly when COLMAP's database cannot be read, and the point count is the largest size divided by 43 |
| MainProcessor.Processor.constructor | main.py:113-125 | a new work directory has empty images/ and sparse/, no thumbnail and no point clouds |
| MainProcessor.Processor.ExtractFrames | main.py:127-173 | the count returned is the sampling count; exactly the frame files up to it are added; the thumbnail exists once a frame was read; nothing else changes |
| MainProcessor.Processor.RunSparseReconstruction | main.py:284-334 | success is exactly the mapper's success; sparse/ then holds what the mapper left; nothing else changes |
| MainProcessor.Processor.CompleteSparseModels | main.py:345-351 | the candidate models are exactly the directories holding cameras.bin and points3D.bin, in listing order |
| MainProcessor.Processor.ExportSparseToPly | main.py:336-386 | with no complete model nothing is exported; otherwise the largest model (first in listing order) is converted, and a path is returned exactly when the converter succeeded and left the file |
| MainProcessor.Processor.RunDenseReconstruction | main.py:388-472 | on a CPU-only host the result is the sparse export's; otherwise success needs a complete model, then successful undistortion, stereo and fusion; fused.ply changes only after stereo succeeded |
| MainProcessor.Processor.GetReconstructionStats | main.py:474-541 | the statistics reported are those of StatsFor for the current sparse/ listing; nothing changes |
| MainProcessor.SelectorsAgreeOnCompleteListings | main.py:354-360 | when every directory with points3D.bin also has cameras.bin, the exporter and the statistics pick models of the same size (also main.py:509-514) |
| MainProcessor.SelectorsDifferWithoutCameras | main.py:347 | a directory with only points3D.bin is counted by the statistics but refused by the exporter (also main.py:510) |
| MainService.Normalize | main.py:1576 | `resolve()` yields a normal path (no empty, `.` or `..` component) no longer than its input |
| MainService.NormalizeAppend | main.py:1576 | resolving a path followed by normal components resolves the prefix and keeps the components |
| MainService.NormalizeNormal | main.py:1576 | resolving an already normal path changes nothing |
| MainService.ChildrenDiffer | main.py:1566 | two different names in one directory are two different paths |
| MainService.Glob | main.py:801 | `glob("*.jpg")` lists every frame of the directory exactly once, in an order left to the file system |
| MainService.LookupConcat | main.py:761-811 | a key looked up in two dictionaries joined is found in the first when there, else in the second |
| MainService.ResultKeysDiffer | main.py:773-811 | the five keys the results can hold are different strings |
| MainService.LookupPieces | main.py:761-811 | a lookup in the four pieces of the results looks in each piece in turn |
| MainService.PackagedEntries | main.py:768-811 | the cloud URL and type are present exactly when a cloud was copied before any failure, the model URL when `sparse/` has a model directory, the images URL when frames exist, and "Storage failed: ..." exactly on a failure |
| MainService.PackagedDistinct | main.py:761-811 | no key of the results dictionary appears twice |
| MainService.Storage.constructor | main.py:92 | the results directory is an existing directory of the host file system |
| MainService.Storage.Store | main.py:573-576 | the job directory is created when missing and one file is written into it |
| MainService.Storage.SamplePath | main.py:803-806 | a copied sample lands at `<results>/<job>/images/<name>` |
| MainService.Storage.UploadResults | main.py:759-813 | the results are the packaged entries for the dense/sparse/none cloud, the model zip and the samples; at most 5 distinct frames are copied, each now a file under the job's images directory; the cloud and zip files exist when their step ran; every path outside `<results>/<job>` is left as it was, and every new path lies inside it |
| MainService.Storage.WriteOutputs | main.py:764-798 | each of the directory, cloud and zip steps runs only when no earlier step raised, and its file then exists; paths deeper than the job directory, and every path outside it, are kept, and new paths lie inside it |
| MainService.Storage.CopySamples | main.py:800-807 | the first min(5, n) globbed frames are copied, distinct and each now a file; nothing outside the job's images directory changes |
| MainService.Storage.WriteSamples | main.py:805-806 | every name becomes a file of the job's images directory and no other path changes |
| MainService.Storage.Download | main.py:1563-1584 | 404 exactly when the joined path cannot be walked (a component before the last, `..` included, is not reached through an existing directory) or what it resolves to does not exist; otherwise 400 for a non-file and 403 outside the results directory; a file is served exactly when it exists, is a file and lies under the results directory |
| MainService.PlainNameServed | main.py:1563-1584 | an existing file named plainly inside an existing plain job directory is served |
| MainService.OtherJobReadable | main.py:1566 | containment is checked against the results directory, so when the job's directory and the other job's exist, `../<other job>/<file>` serves another job's file (also main.py:1576) |
| MainService.MissingJobNotFound | main.py:1566-1567 | without the job's directory `<job>/..` cannot be walked, so `../<other job>/<file>` is answered 404 whatever exists elsewhere |
| MainService.AbsoluteNameRefused | main.py:1566 | an absolute file name replaces the job directory, and one outside the results directory gets 403 (also main.py:1574-1578) |
| MainService.JobRecord.constructor | main.py:1124-1135 | a queued job is pending at progress 0 with the upload message, no results, statistics or error |
| MainService.JobRecord.Start | main.py:546-548 | the pipeline opens in processing, "Frame Extraction", at progress 10, extracting frames; the rest is kept (also main.py:555) |
| MainService.JobRecord.Enter | main.py:587-588 | entering a stage sets its name and message and keeps everything else |
| MainService.JobRecord.Reach | main.py:584 | a checkpoint sets the progress and logs it, keeping everything else |
| MainService.JobRecord.RecordStats | main.py:633 | the statistics are stored and nothing else changes |
| MainService.JobRecord.Fail | main.py:731-740 | a failure sets failed and "Processing failed: ...", records the current stage and the error, and keeps the progress |
| MainService.JobRecord.Complete | main.py:722-727 | completion sets completed, 100, "Complete", the success message and the results |
| MainService.JobTable.constructor | main.py:71-77 | the job map starts empty, since the database layer has no `get_all_jobs` (also main.py:89) |
| MainService.JobTable.Queue | main.py:1124-1135 | the new entry is stored under its id, pending at progress 0 with the scan id |
| MainService.MaxFrames | main.py:559-564 | the frame budget is at least 40 on every host and tier |
| MainService.CheckpointsIncrease | main.py:548 | the progress values of a successful run increase strictly from 10 to 100 (also main.py:584-724) |
| MainService.FailureProgressIsPrefix | main.py:731-734 | a failed run's progress values are a proper prefix of the successful run's, so it never shows 100 and never goes back |
| MainService.TooFewFramesFail | main.py:569-570 | fewer than 15 frames fail the run in "Frame Extraction", whatever happens later |
| MainService.ScanJobsFailAsWritten | main.py:579-581 | as written, a job with a scan id that passes the 15-frame check fails in "Frame Extraction" on the three-argument call; with two arguments the same run completes |
| MainService.Abort | main.py:731-748 | the job is failed as in Fail and a truthy scan's status becomes "failed"; nothing else in the database changes |
| MainService.RunStep | main.py:586-612 | a fatal stage publishes its progress and stage; it fails the job and the scan exactly when the stage raised |
| MainService.StoreThumbnail | main.py:572-582 | the thumbnail is stored in the job directory and the scan marked "processing" |
| MainService.ExtractStage | main.py:554-584 | the frame count is the sampling count; the stage fails exactly below 15 frames; the new work directory holds exactly those frames |
| MainService.FeatureStages | main.py:586-604 | the stages pass exactly when feature extraction and matching both succeed; a failure fails the scan |
| MainService.ToolStages | main.py:586-614 | the stages pass exactly when no COLMAP tool fails, the first failing tool naming the stage |
| MainService.ExportStages | main.py:616-650 | quality analysis never fails; the export passes exactly when a complete model exists and the converter succeeded and left the file; progress logs 80 then 85 |
| MainService.DenseStage | main.py:652-665 | dense reconstruction runs only for medium and high on a GPU host, never fails the job, and the published cloud is dense exactly when it left fused.ply |
| MainService.SaveDetails | main.py:675-718 | a truthy scan gets its technical-details row and the status "completed" |
| MainService.FinishStage | main.py:667-727 | the upload, the details and completion: the job ends completed at 100 with results, logging 95 then 100 |
| MainService.ScanStatusTwice | main.py:581 | a later status update of the same scan overrides an earlier one (also main.py:746) |
| MainService.SuccessLog | main.py:548-724 | the stage logs of a successful run add up to the checkpoints |
| MainService.FailureLog | main.py:548-650 | the stage logs of a failing run add up to the progress values reached before the failing stage |
| MainService.ColmapStages | main.py:586-650 | the stages after frame extraction pass exactly when no COLMAP stage fails; a failure records that stage |
| MainService.RunStages | main.py:553-650 | every fatal stage passes exactly when the pipeline has no failure; the scan ends "processing" or "failed" accordingly |
| MainService.ProcessVideoPipeline | main.py:543-757 | a run completes exactly when no fatal step fails, with progress along the checkpoints and results naming the dense cloud in preference to the sparse one; a failure keeps the progress reached and records the stage; the scan ends "completed" or "failed" and its details row is saved only on success |
| WorkerPipeline.OtherTiersRunAsLow | colmap-worker/colmap_pipeline.py:96-110 | any tier other than "high" and "medium", unknown names included, gets the low parameters for features, matching and patch-match stereo, and cross-checking is off exactly then (also colmap-worker/colmap_pipeline.py:144-160, colmap-worker/colmap_pipeline.py:266-283) |
| WorkerPipeline.ExtractionCapsFor | colmap-worker/colmap_pipeline.py:96-110 | extraction uses the same image size as patch-match stereo in every tier, features grow with it (2.56 per pixel), and the 800 cap is used exactly for tiers other than high and medium |
| WorkerPipeline.MatchingParamsFor | colmap-worker/colmap_pipeline.py:144-160 | cross-checking is on exactly for high and medium; the ratio and distance thresholds come from the three tier rows |
| WorkerPipeline.PatchMatchFor | colmap-worker/colmap_pipeline.py:266-282 | the window radius is odd, between 5 and 9, and the window step is 1 exactly for high and medium |
| WorkerPipeline.FramesStage | colmap-worker/colmap_pipeline.py:27-72 | the stage fails exactly when ffmpeg fails; otherwise the frame count is the number of `frame_*.jpg` files the glob lists, and each listed frame is a path inside the output directory |
| WorkerPipeline.DatabaseStage | colmap-worker/colmap_pipeline.py:74-123 | feature extraction and matching fail exactly when the tool fails, and on success name the database (also colmap-worker/colmap_pipeline.py:125-174) |
| WorkerPipeline.SparseStage | colmap-worker/colmap_pipeline.py:176-227 | the stage succeeds exactly when the mapper succeeds and left the model directory `0/`; a mapper that succeeded without it gives "No reconstruction output generated" |
| WorkerPipeline.DenseStage | colmap-worker/colmap_pipeline.py:229-318 | dense reconstruction succeeds exactly when undistortion, stereo and fusion succeed and fused.ply exists; a failing undistortion's error is reported |
| WorkerPipeline.MeshStage | colmap-worker/colmap_pipeline.py:320-363 | meshing succeeds exactly when the Poisson mesher succeeds and the mesh file exists |
| WorkerPipeline.FirstError | colmap-worker/colmap_pipeline.py:391-413 | there is a first error exactly when one of the four required stages fails |
| WorkerPipeline.RunCompletePipeline | colmap-worker/colmap_pipeline.py:373-449 | the answer of the stage-by-stage run is RunResult for the same requests and outcomes |
| WorkerPipeline.UndistortInputAsWritten | colmap-worker/colmap_pipeline.py:249 | as written, the undistorter's input lies inside the project directory but is not the `sparse/0` model directory |
| WorkerPipeline.DenseMissesModelAsWritten | colmap-worker/colmap_pipeline.py:249 | after a successful run the model lies at `sparse/0`, never at the `0/` the undistorter is given, so dense reconstruction reads a directory the run did not write (also colmap-worker/colmap_pipeline.py:409-410) |
| WorkerPipeline.DenseReadsSparseModel | colmap-worker/colmap_pipeline.py:409-410 | corrected, the undistorter reads exactly the model directory a successful run reports (also colmap-worker/colmap_pipeline.py:249) |
| WorkerPipeline.SuccessIffRequiredStages | colmap-worker/colmap_pipeline.py:391-445 | the run succeeds exactly when the four required stages do, so an advisory stage never turns success into failure |
| WorkerPipeline.AdvisoryParts | colmap-worker/colmap_pipeline.py:415-442 | on success the frame count is the number of frame files; the dense part is present exactly when requested and successful; the mesh part exactly when meshing was requested on top of a successful dense run and succeeded, so never without the dense part |
| WorkerPipeline.FirstFailureWins | colmap-worker/colmap_pipeline.py:393-395 | when ffmpeg fails, its error is the answer, whatever later stages would do |
| WorkerPipeline.AsDict | colmap-worker/colmap_pipeline.py:415-420 | the dictionary's first key is "success", true exactly for a successful run (also colmap-worker/colmap_pipeline.py:449) |
| WorkerPipeline.DictKeys | colmap-worker/colmap_pipeline.py:415-442 | the dictionary has "point_cloud" exactly when the answer has a dense part, "mesh" exactly when it has a mesh part, and "error" exactly on failure |
| PycolmapPipeline.NewPipeline | gcp-deployment/colmap-worker/pycolmap_pipeline.py:14-35 | construction fails with ImportError exactly when the bindings are missing, and otherwise keeps the workspace directory |
| PycolmapPipeline.FramesResult | gcp-deployment/colmap-worker/pycolmap_pipeline.py:49-79 | frame extraction fails exactly when `int(fps / frame_rate)` is 0 and a frame was read, since `%` by zero raises |
| PycolmapPipeline.SavedFrames | gcp-deployment/colmap-worker/pycolmap_pipeline.py:51-66 | with a non-zero interval of either sign, frame k is kept exactly when k is a multiple of its magnitude, so ceil(read / magnitude) frames are written |
| PycolmapPipeline.FramesDir.constructor | gcp-deployment/colmap-worker/pycolmap_pipeline.py:46-47 | a new frames directory is empty |
| PycolmapPipeline.FramesDir.ExtractFrames | gcp-deployment/colmap-worker/pycolmap_pipeline.py:37-79 | the answer is FramesResult, and exactly the frame files up to the saved count are added |
| PycolmapPipeline.DatabaseStage | gcp-deployment/colmap-worker/pycolmap_pipeline.py:81-175 | image import, feature extraction and matching fail exactly when the binding call fails, and on success name the database |
| PycolmapPipeline.MappingStage | gcp-deployment/colmap-worker/pycolmap_pipeline.py:177-221 | mapping succeeds exactly when the call succeeds and the output directory lists an entry; the sparse path is then the first listed entry; an empty listing gives "No reconstruction output generated" |
| PycolmapPipeline.DenseStage | gcp-deployment/colmap-worker/pycolmap_pipeline.py:223-291 | dense reconstruction succeeds exactly when undistortion, stereo and fusion succeed and fused.ply exists, and then reports `dense/fused.ply` |
| PycolmapPipeline.MeshStage | gcp-deployment/colmap-worker/pycolmap_pipeline.py:293-327 | meshing succeeds exactly when the Poisson call succeeds and the mesh file exists |
| PycolmapPipeline.RequiredSteps | gcp-deployment/colmap-worker/pycolmap_pipeline.py:344-371 | the required stages are five |
| PycolmapPipeline.FirstFailing | gcp-deployment/colmap-worker/pycolmap_pipeline.py:344-371 | the first failing required stage, when there is one, is one of the five |
| PycolmapPipeline.Run | gcp-deployment/colmap-worker/pycolmap_pipeline.py:329-409 | the stages issued begin with the required ones in order, at most the dense and meshing stages follow, and the run reconstructs exactly when all five required stages ran and none failed |
| PycolmapPipeline.RunCompletePipeline | gcp-deployment/colmap-worker/pycolmap_pipeline.py:329-409 | the answer and the stages issued are those of Run; the frames directory gains exactly the saved frames |
| PycolmapPipeline.FirstFailureStopsRun | gcp-deployment/colmap-worker/pycolmap_pipeline.py:344-371 | the run fails exactly when a required stage fails; no stage after the first failing one runs; with none failing, all five run in order |
| PycolmapPipeline.AdvisoryInputs | gcp-deployment/colmap-worker/pycolmap_pipeline.py:373-402 | dense reconstruction runs exactly when requested and starts from the first sparse entry; meshing starts from the point cloud dense reported; a mesh part implies a dense part and a request |
| PycolmapPipeline.FrameCountReported | gcp-deployment/colmap-worker/pycolmap_pipeline.py:51-66 | the reported frame count is the number of frames written, ceil(read / magnitude of the interval) (also gcp-deployment/colmap-worker/pycolmap_pipeline.py:373-378) |
| ServicePipeline.TiersOrdered | python-colmap-service/colmap_pipeline.py:28-117 | the table has exactly the tiers low, medium, high and extreme, and image size, feature count and patch-match window grow strictly along them |
| ServicePipeline.Flags | python-colmap-service/colmap_pipeline.py:243-244 | each table entry becomes two words, `--<key>` then its value's text, in table order |
| ServicePipeline.FlagsAppend | python-colmap-service/colmap_pipeline.py:243-244 | one more table entry appends exactly its two words |
| ServicePipeline.AppendFlags | python-colmap-service/colmap_pipeline.py:242-244 | the loop leaves the fixed prefix followed by the flags of the table section |
| ServicePipeline.CommandLengths | python-colmap-service/colmap_pipeline.py:194-209 | every table-driven command is its fixed prefix plus two words per table entry (also python-colmap-service/colmap_pipeline.py:211-224, python-colmap-service/colmap_pipeline.py:226-246, python-colmap-service/colmap_pipeline.py:279-291) |
| ServicePipeline.FeatureCommand | python-colmap-service/colmap_pipeline.py:196-207 | the extractor's 14 words name the database and the frames and carry the tier's image size and feature count as values |
| ServicePipeline.MatchCommand | python-colmap-service/colmap_pipeline.py:213-222 | the exhaustive matcher's 10 words name the database; nothing depends on the tier |
| ServicePipeline.MapperCommand | python-colmap-service/colmap_pipeline.py:233-244 | the mapper's 14 words read the database and the frames and write the sparse directory |
| ServicePipeline.UndistortCommand | python-colmap-service/colmap_pipeline.py:269-275 | the undistorter reads the frames and the chosen model and writes the undistorted workspace |
| ServicePipeline.StereoCommand | python-colmap-service/colmap_pipeline.py:280-289 | patch-match stereo works in the undistorted workspace with the tier's image size and window radius |
| ServicePipeline.FusionCommand | python-colmap-service/colmap_pipeline.py:294-300 | fusion reads the undistorted workspace and its last word is the fused cloud |
| ServicePipeline.MeshCommand | python-colmap-service/colmap_pipeline.py:314-318 | the Poisson mesher reads the given point cloud and its last word is the mesh path |
| ServicePipeline.TextureCommand | python-colmap-service/colmap_pipeline.py:337-344 | the texture mapper reads the given mesh, the frames and the given model, and its last word is the texture path |
| ServicePipeline.PlanDataFlow | python-colmap-service/colmap_pipeline.py:151-185 | each command of a run reads what an earlier one wrote: the database, the chosen model, the undistorted workspace, the fused cloud and the mesh; extraction and stereo share the image size |
| ServicePipeline.CommandError | python-colmap-service/colmap_pipeline.py:350-372 | a command raises exactly when its return code is non-zero, and then a RuntimeError |
| ServicePipeline.CommandErrorMessage | python-colmap-service/colmap_pipeline.py:363-366 | the error message is "COLMAP command failed: " followed by stderr, or by "Unknown error" when stderr is empty |
| ServicePipeline.SparseModel | python-colmap-service/colmap_pipeline.py:248-254 | an empty sparse directory raises; otherwise the model is the FIRST entry listed |
| ServicePipeline.Plan | python-colmap-service/colmap_pipeline.py:151-185 | a complete run issues eight commands |
| ServicePipeline.Issued | python-colmap-service/colmap_pipeline.py:151-185 | a run issues at most eight commands |
| ServicePipeline.SparseResult | python-colmap-service/colmap_pipeline.py:151-166 | the first three steps yield a model exactly when they issue more than three commands' worth, i.e. none failed and the mapper left a model |
| ServicePipeline.DenseIssued | python-colmap-service/colmap_pipeline.py:256-304 | the dense step issues between one and three commands |
| ServicePipeline.ColmapPipeline.constructor | python-colmap-service/colmap_pipeline.py:20-25 | a new pipeline has tier "medium", image size 1600 and has issued nothing |
| ServicePipeline.ColmapPipeline.RunCommand | python-colmap-service/colmap_pipeline.py:350-372 | one command is issued and its error is CommandError |
| ServicePipeline.ColmapPipeline.RunFullPipeline | python-colmap-service/colmap_pipeline.py:119-192 | the answer is FullPipeline; an unknown tier issues nothing; otherwise exactly the planned commands up to the first failure are issued (also python-colmap-service/colmap_pipeline.py:196) |
| ServicePipeline.ColmapPipeline.RunStages | python-colmap-service/colmap_pipeline.py:151-188 | under one tier the answer is TierPipeline, and the issued commands are the plan's prefix up to the first failure |
| ServicePipeline.ColmapPipeline.SparseSteps | python-colmap-service/colmap_pipeline.py:151-166 | steps 1 to 3 answer SparseResult and issue the plan's first commands up to the first failure |
| ServicePipeline.ColmapPipeline.ExtractFeatures | python-colmap-service/colmap_pipeline.py:194-209 | the feature extractor command is issued and its error is CommandError |
| ServicePipeline.ColmapPipeline.MatchFeatures | python-colmap-service/colmap_pipeline.py:211-224 | the exhaustive matcher command is issued and its error is CommandError |
| ServicePipeline.ColmapPipeline.SparseReconstruction | python-colmap-service/colmap_pipeline.py:226-254 | the mapper is issued; success needs return code 0 and a listed entry, and names the first entry; otherwise the command error or "No sparse model generated" |
| ServicePipeline.ColmapPipeline.DenseReconstruction | python-colmap-service/colmap_pipeline.py:256-304 | the answer is DenseResult, and undistortion, stereo and fusion are issued |
| ServicePipeline.ColmapPipeline.GenerateMesh | python-colmap-service/colmap_pipeline.py:306-322 | the mesher is issued; success exactly when it returns 0, naming the mesh path |
| ServicePipeline.ColmapPipeline.TextureMesh | python-colmap-service/colmap_pipeline.py:324-348 | the texture mapper is issued; success exactly when it returns 0, naming the textured mesh path |
| ServicePipeline.ColmapPipeline.ExportModel | python-colmap-service/colmap_pipeline.py:406-438 | the answer is ExportResult; a PLY or OBJ format in any case issues one model_converter command, any other issues nothing |
| ServicePipeline.PlanParts | python-colmap-service/colmap_pipeline.py:151-185 | the plan split at each step's boundary is the step's own commands |
| ServicePipeline.LogGrows | python-colmap-service/colmap_pipeline.py:151-185 | issuing the next n planned commands extends the issued prefix by n |
| ServicePipeline.RunOutcome | python-colmap-service/colmap_pipeline.py:119-192 | a run succeeds exactly when the tier exists, every command returns 0 and the mapper leaves a model; the result then has six distinct keys, the sparse model being the first listed entry |
| ServicePipeline.TierPipeline | python-colmap-service/colmap_pipeline.py:151-188 | under one tier the run succeeds exactly when all eight commands are issued and the last returns 0, every failure is a RuntimeError, and a success reports six entries with the first listed model |
| ServicePipeline.FullPipeline | python-colmap-service/colmap_pipeline.py:119-192 | the answer is a KeyError exactly when the tier is not in the table (the lookup at line 196), and a success always has six entries |
| ServicePipeline.FailureKinds | python-colmap-service/colmap_pipeline.py:190-192 | every failure is a command's RuntimeError or, for an unknown tier, a KeyError (also python-colmap-service/colmap_pipeline.py:196, python-colmap-service/colmap_pipeline.py:363-366) |
| ServicePipeline.ExportFormats | python-colmap-service/colmap_pipeline.py:412-431 | "ply" and "Obj" are accepted and "xyz" is refused with ValueError |
| ServicePipeline.ExportResult | python-colmap-service/colmap_pipeline.py:406-438 | the export succeeds with the output path exactly when the format is PLY or OBJ in any case and the converter returns 0; an unknown format is a ValueError, a failing converter a RuntimeError |
| ServicePipeline.ReconstructionStatsOf | python-colmap-service/colmap_pipeline.py:374-404 | the placeholder statistics are 1 camera when cameras.bin exists, the number of `*.jpg` names (dot-names included) when images.bin exists, 1000 points when points3D.bin exists, 0 for each missing file |
| ServiceMain.UploadVideo | python-colmap-service/main.py:102-138 | the upload succeeds exactly when the name has an accepted suffix, the project directory can be made and the write succeeds; a refused name gets 400, a failing `mkdir` (outside the `try`) a bare 500, a failed write 500 "Error uploading video: ..."; the reply names `uploads/<project>/<filename>`, or the filename itself when it is absolute, and the size written |
| ServiceMain.LowerTwice | python-colmap-service/main.py:109 | lower-casing twice is lower-casing once |
| ServiceMain.AcceptedIgnoresCase | python-colmap-service/main.py:109 | a name is accepted exactly when its lower-cased form is |
| ServiceMain.AcceptedExamples | python-colmap-service/main.py:109 | "clip.MOV" and ".mp4" are accepted, "clip.mp4.txt" and "mp4" are not |
| ServiceMain.DownloadName | python-colmap-service/main.py:221-227 | exactly the five types model, dense, sparse, mesh and textured have a file name |
| ServiceMain.DownloadFile | python-colmap-service/main.py:216-241 | an unknown type gets 400; a known one serves `outputs/<project>/<file>` when it exists and gets 404 otherwise |
| ServiceMain.DownloadNamesDistinct | python-colmap-service/main.py:221-227 | the five types name five different files |
| ServiceMain.CheckpointsFollowOrder | python-colmap-service/main.py:336-376 | a later step has a larger progress checkpoint, and conversely |
| ServiceMain.FailureMessages | python-colmap-service/main.py:295-297 | a failed task's message is its task's prefix followed by the error text (also python-colmap-service/main.py:390-392) |
| ServiceMain.Job.constructor | python-colmap-service/main.py:149-156 | a new job is pending at progress 0, without results |
| ServiceMain.Job.Cancel | python-colmap-service/main.py:401-405 | only a processing job becomes cancelled with "Job cancelled by user"; progress and results are kept |
| ServiceMain.DistinctCount | python-colmap-service/main.py:214 | a sequence without repeats has as many elements as its set |
| ServiceMain.JobStore.constructor | python-colmap-service/main.py:54 | the job map starts empty |
| ServiceMain.JobStore.Create | python-colmap-service/main.py:149-156 | the id maps to a fresh pending job; a new key is appended to the insertion order, a reused key keeps its place and loses its old entry (also python-colmap-service/main.py:181-188) |
| ServiceMain.JobStore.ExtractFrames | python-colmap-service/main.py:140-170 | a pending job "Starting frame extraction..." is stored under the new id and the reply says "Frame extraction started" |
| ServiceMain.JobStore.StartReconstruction | python-colmap-service/main.py:172-201 | a pending job is stored under the new id and the reply says "COLMAP reconstruction started" |
| ServiceMain.JobStore.GetJobStatus | python-colmap-service/main.py:203-209 | a known id gets its job, an unknown one 404 "Job not found" |
| ServiceMain.JobStore.ListJobs | python-colmap-service/main.py:211-214 | the list has one entry per job, holds every job, and lists them in the order their ids were first stored, as `list(jobs.values())` does |
| ServiceMain.JobStore.CancelJob | python-colmap-service/main.py:395-407 | an unknown id gets 404; otherwise the reply carries "Job cancelled" and the id, and only a processing job becomes cancelled with the message "Job cancelled by user", its progress and results kept |
| ServiceMain.Listed | python-colmap-service/main.py:214 | the entries are listed in the order of their keys |
| ServiceMain.ListedAll | python-colmap-service/main.py:214 | listing in insertion order misses no job |
| ServiceMain.VideoFiles | python-colmap-service/main.py:256-257 | the videos found are exactly the listed names ending in `.mp4`, `.avi`, `.mov` or `.mkv`, dot-names included |
| ServiceMain.Mp4First | python-colmap-service/main.py:256-262 | when the directory holds an `.mp4`, the video used is an `.mp4` |
| Text.JpgFiles | python-colmap-service/main.py:281 | the `*.jpg` files counted are exactly the names of the images directory ending in `.jpg`, dot-names included (also colmap-worker/main.py:619) |
| ServiceMain.ProcessFrameExtraction | python-colmap-service/main.py:243-298 | the job ends as FrameExtraction says, progress logs its values, and ffmpeg runs on the first video found, or not at all when `images_dir.mkdir` raises (as for a project without an upload directory) or no video is found |
| ServiceMain.ExtractionOutcome | python-colmap-service/main.py:255-298 | extraction completes exactly when the images directory can be made, a video (dot-names included) exists and ffmpeg succeeds, then at 100 with the jpg count in the message; otherwise the job fails and keeps its results, and a failing `mkdir` reports its own error text |
| ServiceMain.FrameExtraction | python-colmap-service/main.py:243-298 | the job ends completed or failed; a failure keeps the results and carries an extraction-failed message; a completion sets 100 and reports the `*.jpg` count and the images directory |
| ServiceMain.SettingsResolution | python-colmap-service/main.py:324-333 | an unknown tier uses medium's settings; a non-zero requested size or feature count wins; "high" without a size gives 1600 |
| ServiceMain.SettingsFor | python-colmap-service/main.py:324-333 | the pipeline never gets a zero cap: each setting is a tier value or the request's own value |
| ServiceMain.FailedStepIsFirst | python-colmap-service/main.py:335-379 | the failing step is enabled and raised, and every enabled step before it succeeded; with no failing step every enabled step succeeded |
| ServiceMain.LaterCases | python-colmap-service/main.py:357-384 | past the required steps, the optional steps log their checkpoints up to the failing one, or all of them and then 100 |
| ServiceMain.RunStep | python-colmap-service/main.py:336-379 | a step sets its checkpoint and message and fails the job exactly when it raised, keeping the results |
| ServiceMain.RequiredSteps | python-colmap-service/main.py:335-348 | the three required steps pass exactly when none raised; a failure leaves the job as Steps says and no later progress |
| ServiceMain.LaterSteps | python-colmap-service/main.py:350-385 | the optional steps and completion leave the job as Steps says and log LaterProgress |
| ServiceMain.ProcessReconstruction | python-colmap-service/main.py:300-393 | with the pipeline built as intended, each step's outcome standing for whether its COLMAP run raised (the class has no public step methods): no images (dot-named `.jpg` files count) fail the job before any step; otherwise progress follows the checkpoints and the job ends as Reconstruction says, with the resolved settings |
| ServiceMain.Reconstruction | python-colmap-service/main.py:300-393 | the job completes exactly when images exist and no enabled step raises, then with 100 and the results of the enabled steps; otherwise it fails at the failing step's checkpoint and keeps its results |
| ServiceMain.LogExtends | python-colmap-service/main.py:336-384 | progress logs join associatively |
| ServiceMain.ProcessReconstructionAsWritten | python-colmap-service/main.py:300-321 | as written, past the image check the constructor call raises, so the job fails with no step run and no progress set |
| ServiceMain.ReconstructionAsWritten | python-colmap-service/main.py:300-321 | as written the job always fails and keeps its progress and results; it reports the constructor's TypeError exactly when images exist |
| ServiceMain.ReconstructionNeverCompletesAsWritten | python-colmap-service/main.py:318-321 | with images present and every step succeeding, the run as written fails with the constructor's TypeError, while the intended run completes; with the constructor fixed, the missing `extract_features` fails the job at checkpoint 10 with AttributeError |
| ServiceMain.AppendIf | python-colmap-service/main.py:336-382 | appending a checkpoint between the last value and the next bound keeps the values increasing |
| ServiceMain.RequiredIncreasing | python-colmap-service/main.py:336-347 | the required checkpoints come in increasing order, below 70 |
| ServiceMain.CheckpointsIncreasing | python-colmap-service/main.py:336-382 | whichever checkpoints are reached, they come in increasing order |
| ServiceMain.ProgressIncreases | python-colmap-service/main.py:336-382 | progress only grows during a run, and a completed run ends at 100 |
| ServiceMain.Regroup | python-colmap-service/main.py:336-382 | regrouping the progress log's pieces keeps it equal |
| ServiceMain.FailureStopsAtCheckpoint | python-colmap-service/main.py:389-393 | a failed run stops at its failing step's checkpoint, the last value it logged, and keeps the job's results |
| ServiceMain.KeysAppend | python-colmap-service/main.py:350-379 | the keys of joined entries are the keys of each part, in order |
| ServiceMain.ResultKeys | python-colmap-service/main.py:350-379 | a completed run's result keys are the sparse model and the three required steps, then each requested step's pair |
| ServiceMain.RequiredKeys | python-colmap-service/main.py:350-355 | the required result keys are the sparse model and the three required steps |
| ServiceMain.EntryKeys | python-colmap-service/main.py:362-363 | each optional step adds its flag key and its model key |
| ServiceMain.ResultsFollowFlags | python-colmap-service/main.py:350-379 | the results hold the dense, mesh and textured models exactly when those steps were requested, and always the sparse model |
| WorkerMain.ParamsFor | colmap-worker/main.py:79-104 | a known tier's parameters, and the medium ones (1200 pixels, 8000 features) for any other name (also colmap-worker/main.py:218) |
| WorkerMain.TierOrder | colmap-worker/main.py:79-104 | exactly "low", "medium", "high" and "extreme" are tiers, and each tier from low to high raises both the image size and the feature cap |
| WorkerMain.Job.constructor | colmap-worker/main.py:451-460 | a new job is pending at 0 with no results and the starting message of its kind; only a reconstruction keeps the request as its parameters (also colmap-worker/main.py:489-499) |
| WorkerMain.JobTable.constructor | colmap-worker/main.py:46 | the job dictionary starts empty |
| WorkerMain.JobTable.ExtractFrames | colmap-worker/main.py:441-477 | the table gains a fresh pending frame-extraction job under the id, overwriting nothing else, and the reply is "Frame extraction started" with that id |
| WorkerMain.JobTable.StartReconstruction | colmap-worker/main.py:479-516 | the table gains a fresh pending reconstruction job under the id that keeps the request, and the reply is "COLMAP reconstruction started" |
| WorkerMain.JobTable.GetJobStatus | colmap-worker/main.py:518-536 | an unknown id gives 404 "Job not found", a known one its job |
| WorkerMain.UploadVideoAsWritten | colmap-worker/main.py:406-439 | every refusal of the upload as written is a 500, including the content-type check |
| WorkerMain.NotAVideoIsServerErrorAsWritten | colmap-worker/main.py:413-416 | a text/plain upload is refused with 500 "Video upload failed: 400: ..." instead of the intended 400 (also colmap-worker/main.py:437-439) |
| WorkerMain.UploadVideo | colmap-worker/main.py:406-439 | 400 exactly when the content type is missing or not video/*, 500 exactly when a video's write fails, else the stored size and the path pathlib joins from the upload directory, the project id and the file name |
| WorkerMain.UploadPath | colmap-worker/main.py:418-422 | an absolute file name is the path itself, an absolute project id replaces the upload directory, and otherwise the path is `/app/uploads/<project>/<file>` |
| WorkerMain.UploadsAgreeOnVideos | colmap-worker/main.py:406-439 | the corrected and the as-written upload agree on every video content type |
| WorkerMain.DownloadFile | colmap-worker/main.py:538-568 | 400 exactly for a type other than sparse, dense and mesh, 404 exactly when the mapped file is absent, else an existing file named `<project>_<type>.ply` |
| WorkerMain.VideoFrames | colmap-worker/main.py:106-176 | a successful extraction reports the number of frames the rate keeps |
| WorkerMain.SavedFrames | colmap-worker/main.py:138-155 | a non-zero rate of either sign keeps exactly the frames whose index Python's `%` divides, ceil(frames read / abs(rate)) of them |
| WorkerMain.ModAbs | colmap-worker/main.py:144 | a remainder by a negative rate is zero exactly when the one by its absolute value is |
| WorkerMain.ExtractFramesFromVideo | colmap-worker/main.py:106-176 | the result is the extraction's outcome, the files written are the frames kept so far, progress goes to 10 and then to 30 on success, and a failure marks the job failed at 10 with "Frame extraction failed: ..." |
| WorkerMain.ReadFrames | colmap-worker/main.py:138-155 | the read loop writes `frame_000000.jpg` onward for each kept frame, fails on the first frame for rate 0, and fails at the tenth kept frame when the container reports 0 frames |
| WorkerMain.KeptStep | colmap-worker/main.py:144 | reading one more frame keeps one more exactly when its index is a multiple of the rate |
| WorkerMain.FrameSetStep | colmap-worker/main.py:145-148 | writing the next frame adds exactly its file to the frames written |
| WorkerMain.FrameSetSize | colmap-worker/main.py:145-148 | n frames written give n distinct files |
| WorkerMain.VideoFiles | colmap-worker/main.py:582 | the videos chosen from are exactly the listed names ending in `.mp4`, `.avi` or `.mov`, dot-names included |
| WorkerMain.ExtractFramesTask | colmap-worker/main.py:571-606 | the job ends as its specification function says: failed without a video or on an extraction error, else completed at 100 with the report; the progress steps are 10, 30, 100 and the frames written are the ones kept |
| WorkerMain.FramesTaskOutcome | colmap-worker/main.py:571-606 | with a video present, the background task completes exactly when the video opens, the rate is usable and the frame count is known or fewer than ten frames are kept; the report then counts every kept frame, all written as distinct files (also colmap-worker/main.py:106-176) |
| WorkerMain.FramesTask | colmap-worker/main.py:571-606 | the job ends completed or failed; a failure keeps the results; a completion needs a video, sets 100 and reports the frames under the project's images directory |
| WorkerMain.Mp4First | colmap-worker/main.py:582-586 | an `.mp4` in the directory is always the video chosen, ahead of `.avi` and `.mov` |
| WorkerMain.Failure | colmap-worker/main.py:191-194 | the failure found is a call whose command fails |
| WorkerMain.FailureIsFailing | colmap-worker/main.py:191-194 | the failure found is a failing call of the list, and none is found exactly when every call succeeds (also colmap-worker/main.py:608-675) |
| WorkerMain.RunCall | colmap-worker/main.py:178-203 | one command: the checkpoint before it is set and the command line recorded; a failure fails the job with the stage's wrapped error and ends the run, and success sets the stage's next checkpoint (also colmap-worker/main.py:205-383) |
| WorkerMain.FailedCallStep | colmap-worker/main.py:191-203 | a failing call contributes only its starting checkpoint and its command, and is the first failure |
| WorkerMain.PassedCallStep | colmap-worker/main.py:205-383 | a succeeding call contributes its checkpoints and its command, and the rest of the run follows |
| WorkerMain.StartCall | colmap-worker/main.py:214-216 | before a command, the job's progress and message are that command's checkpoint and the status and results are unchanged (also colmap-worker/main.py:246-248, colmap-worker/main.py:273-275, colmap-worker/main.py:305-307, colmap-worker/main.py:324-326, colmap-worker/main.py:336-338, colmap-worker/main.py:363-365) |
| WorkerMain.FinishCall | colmap-worker/main.py:231-233 | after a command succeeds, progress moves to the stage's next checkpoint when it has one and the message is the stage's completion text (also colmap-worker/main.py:257-259, colmap-worker/main.py:289-291, colmap-worker/main.py:349-351, colmap-worker/main.py:379-380) |
| WorkerMain.RequiredStages | colmap-worker/main.py:205-294 | feature extraction, matching and the mapper in turn: the first failing one fails the job at its checkpoint with its wrapped error, else the three's checkpoints and commands are added (also colmap-worker/main.py:622-643) |
| WorkerMain.DenseStage | colmap-worker/main.py:296-354 | undistortion, patch-match stereo and fusion in turn, stopping at the first failure, which fails the job at that command's checkpoint |
| WorkerMain.OptionalStages | colmap-worker/main.py:647-663 | the dense stage runs only when asked for and the mesher only when meshing is asked for; a failure in either fails the job |
| WorkerMain.CallsTail | colmap-worker/main.py:647-663 | the commands after the three required ones are the dense three when asked for, then the mesher when asked for |
| WorkerMain.ReconstructionTaskRun | colmap-worker/main.py:608-675 | the job ends as its specification function says; without a `*.jpg` in the images directory no command runs; otherwise the progress steps and the commands run are those of the calls up to the first failure |
| WorkerMain.ReconstructionTask | colmap-worker/main.py:608-675 | the job completes exactly when images exist and no issued command fails, then with 100 and the flags of the stages run; a failure keeps the results |
| WorkerMain.RunStages | colmap-worker/main.py:622-669 | the stages run in order; the job fails at the first failing command's checkpoint or completes at 100 with the flags of the stages run |
| WorkerMain.CallLogIncreasing | colmap-worker/main.py:205-383 | calls in checkpoint order give strictly increasing progress, starting at the first call's checkpoint and ending at 100 exactly when no command fails |
| WorkerMain.ChainedTail | colmap-worker/main.py:205-383 | the calls after the first are still in checkpoint order and come after it |
| WorkerMain.JoinIncreasing | colmap-worker/main.py:205-383 | two increasing runs of progress joined where the first ends below the second's start stay increasing |
| WorkerMain.CallsChained | colmap-worker/main.py:205-383 | the commands of every request run in checkpoint order (also colmap-worker/main.py:622-663) |
| WorkerMain.ReconstructionProgressIncreases | colmap-worker/main.py:608-675 | a reconstruction's progress starts at 35, only grows, and ends at 100 exactly when no command fails |
| WorkerMain.CallsFollowFlags | colmap-worker/main.py:622-663 | the dense commands are run exactly when dense reconstruction is asked for, the mesher exactly when meshing is, and the first three are always extraction, matching and the mapper |
| WorkerMain.IssuedInOrder | colmap-worker/main.py:622-663 | the commands run are the calls' command lines, in order |
| WorkerMain.Command | colmap-worker/main.py:205-383 | every command is a COLMAP call; the first three name the database, extraction carries the tier values, the mapper writes `sparse`, the undistorter reads `sparse/0` and writes `dense`, stereo and fusion work in `dense`, and the mesher reads `dense/fused.ply` |
| WorkerMain.IssuedStopsAtFailure | colmap-worker/main.py:191-194 | with no failure every command runs; otherwise the last command run is the first failing one, and every command before it succeeded (also colmap-worker/main.py:671-675) |
| RepairTool.PointModels | fix_existing_reconstructions.py:29-35 | the candidates are exactly the listed directories holding `points3D.bin` |
| RepairTool.BestSparseModel | fix_existing_reconstructions.py:12-44 | none exactly without the archive, without its `sparse/` directory or without a directory holding `points3D.bin`; otherwise a listed directory that holds one |
| RepairTool.FirstLargestInListing | fix_existing_reconstructions.py:42 | the candidate `max` picks is listed at a place before which every candidate is strictly smaller |
| RepairTool.FindBestSparseModel | fix_existing_reconstructions.py:12-44 | the selection loop returns the model the specification picks: none without the archive or its `sparse/` directory, else Python's first maximum by `points3D.bin` size |
| RepairTool.BestIsLargest | fix_existing_reconstructions.py:12-44 | no model is chosen exactly when the archive, its `sparse/` directory or every candidate is missing; a chosen model is a listed candidate no candidate outsizes, and every candidate listed before it is strictly smaller, since `max` keeps the first of equals |
| RepairTool.FixedCountStep | fix_existing_reconstructions.py:75-112 | counting one more entry adds one exactly when that entry is a fixed job directory |
| RepairTool.ReplacementRule | fix_existing_reconstructions.py:80-121 | a directory with the archive is fixed exactly when a model is chosen, the converter succeeds and leaves its output, and the new cloud is over 1.5 times the current one (or there was none); then the new cloud replaces `point_cloud.ply` and the old one becomes `point_cloud_old.ply`, else the point cloud is untouched; `temp_sparse/` remains exactly when no model was chosen (also fix_existing_reconstructions.py:46-64) |
| RepairTool.Replaces | fix_existing_reconstructions.py:104 | a replacement of a non-empty cloud is strictly larger, and a cloud at least twice as large always replaces |
| RepairTool.Repaired | fix_existing_reconstructions.py:76-121 | a directory without the archive is left as it is; the archive is never touched; a fixed job has a point cloud, no `point_cloud_new.ply` and no `temp_sparse/`; an unfixed one keeps its point cloud and old copy |
| RepairTool.SkippedUnchanged | fix_existing_reconstructions.py:76-84 | entries that are not directories, and directories without `sparse_model.zip`, are left alone and not counted |
| RepairTool.RepairIdempotent | fix_existing_reconstructions.py:104 | a second run right after a fix with a non-empty cloud, with the converter behaving the same, changes nothing and fixes nothing |
| RepairTool.ResultsDir.constructor | fix_existing_reconstructions.py:67 | the results directory as found: whether it exists and its entries |
| RepairTool.ResultsDir.RepairAll | fix_existing_reconstructions.py:66-125 | without `data/results` nothing changes and nothing is fixed; otherwise each entry is repaired in turn and the count is the number of fixed job directories |
| RepairTool.ResultsDir.RepairEntry | fix_existing_reconstructions.py:76-121 | one pass of the loop repairs only the i-th entry, and reports it fixed exactly when the repair rule says so |
| RepairTool.ResultsDir.RepairJob | fix_existing_reconstructions.py:80-121 | a job directory's pass, once the model is chosen, leaves exactly the directory the repair rule gives |
| AppDatabase.LoadColumn | database.py:331-334 | a NULL column stays NULL, an empty text is left as it is, and a loaded value is what the stored text parses to |
| AppDatabase.SavedDetailsReadBack | database.py:262-299 | what the details write stores, the details lookup gives back: the stage list (default `[]`) and the results (default `{}`) survive the dump and the load, and the point count and file size are the ones saved (also database.py:301-338) |
| AppDatabase.NoDetailsView | database.py:305-336 | without a details row the lookup succeeds, every technical field is NULL, and the scan is the one asked for |
| AppDatabase.ListingIn | database.py:226-235 | a listed scan carries its details row's point count and file size, or none without a row |
| AppDatabase.ListsEachOnce | database.py:177-185 | a listing that is a permutation of the wanted keys holds each of them exactly once and nothing else (also database.py:226-235) |
| AppDatabase.Database.constructor | database.py:20-27 | the four tables start empty and keyed by their primary keys, with unique user emails (also database.py:35-125) |
| AppDatabase.Database.CreateUser | database.py:128-145 | an email already on file gives that user's id and changes nothing; otherwise the fresh id is returned, and a row is inserted under it unless the id itself clashes; no other table changes |
| AppDatabase.Database.GetUserByEmail | database.py:147-154 | a user is found exactly when one has the email, and it is that stored user |
| AppDatabase.Database.CreateProject | database.py:157-171 | a fresh id gets an 'active' project stamped now; a clashing id raises IntegrityError and changes nothing; no other table changes |
| AppDatabase.Database.GetUserProjects | database.py:173-187 | every project of the user appears once, with its stored row and its scan count, most recently updated first, and nothing else appears |
| AppDatabase.Database.GetProject | database.py:189-196 | a project is found exactly when its id is stored |
| AppDatabase.Database.CreateScan | database.py:199-220 | a fresh id gets a 'pending' scan with the given quality, stamped now, and the parent project's update time moves to now when the parent exists; a clashing id raises and writes nothing |
| AppDatabase.Database.GetProjectScans | database.py:222-238 | every scan of the project appears once, joined with its details row, newest first, and nothing else appears |
| AppDatabase.Database.GetScan | database.py:240-247 | a scan is found exactly when its id is stored |
| AppDatabase.Database.UpdateScanStatus | database.py:249-259 | only the named scan's status and update time change, and an unknown id changes nothing |
| AppDatabase.Database.SaveScanTechnicalDetails | database.py:262-299 | the scan's details row is replaced by the new one, and the scan, when present, becomes 'completed' |
| AppDatabase.Database.GetScanDetails | database.py:301-338 | an unknown scan gives None; a found row is the stored scan; a scan without details has NULL stage columns |
| AppDatabase.SaveThenLookUp | database.py:262-338 | saving details and then looking the scan up gives back the saved stage list and results, and the scan reads as completed |
| Json.DecodeEncode | database.py:267-268 | any value the details write dumps with `json.dumps` parses back to the same value (also database.py:331-334) |
| Json.Encode | database.py:267-268 | a non-empty text whose first character is `"` exactly for a string and `[` exactly for an array, each closed by its own bracket |
| Json.Decode | database.py:331-334 | an empty or all-space text is refused |
| Json.ValueRoundTrip | database.py:267-268 | an encoded value followed by a boundary reads back as that value, leaving exactly what follows (also database.py:331-334) |
| Json.Hex4RoundTrip | database.py:267 | the `\uXXXX` escape `json.dumps` writes for a control or non-ASCII character reads back as that character (also database.py:332) |
| Json.StringRoundTrip | database.py:267-268 | an escaped string body followed by its closing quote reads back as the original string (also database.py:331-334) |
| Json.ArrayRoundTrip | database.py:267 | an encoded list reads back as the same list |
| Json.ObjectRoundTrip | database.py:268 | an encoded object reads back with the same members in the same order |
| Json.Lookup | database.py:331-334 | `get` finds a value exactly when some member has the key |
| Json.LookupFirst | database.py:331-334 | a found value is the one under the first member with the key |
| Json.LookupDistinct | database.py:331-334 | with distinct keys, the value found is the one under the only member holding the key, which is also the one Python's dictionary keeps |
| DemoJobs.OfProject | backend/app/api/api_v1/jobs.py:50-51 | the filtered list holds exactly the jobs of the project, no more of them than the whole list |
| DemoJobs.OfProjectAppend | backend/app/api/api_v1/jobs.py:50-51 | the filter keeps list order and multiplicity: filtering a concatenation concatenates the filtered parts |
| DemoJobs.Find | backend/app/api/api_v1/jobs.py:61 | the job found is the first with the id, and none is found only when no job has it (also backend/app/api/api_v1/jobs.py:71, backend/app/api/api_v1/jobs.py:90) |
| DemoJobs.DemoJobStore.constructor | backend/app/api/api_v1/jobs.py:13-43 | the two seeded jobs: `job_001` completed at 100, `job_002` running at 75, every progress a percentage |
| DemoJobs.DemoJobStore.ListJobs | backend/app/api/api_v1/jobs.py:45-56 | every job, or with a non-empty project id exactly that project's jobs; the total is their number |
| DemoJobs.DemoJobStore.GetJob | backend/app/api/api_v1/jobs.py:58-66 | 404 "Job not found" exactly when no job has the id, else a stored job with that id |
| DemoJobs.DemoJobStore.CancelJob | backend/app/api/api_v1/jobs.py:68-85 | 404 for an unknown id, 400 for a completed, failed or cancelled job, otherwise only the first job with the id becomes cancelled at the given time |
| DemoJobs.DemoJobStore.GetJobProgress | backend/app/api/api_v1/jobs.py:87-109 | only the first job with the id is polled, and the reply reports its new status, progress and update time; an unknown id gives 404 |
| DemoJobs.PollMonotone | backend/app/api/api_v1/jobs.py:96-102 | a poll never lowers progress nor lifts it past 100 or by more than the draw, changes only a running job, and a running job is completed exactly when it reaches 100 |
| DemoJobs.PollsComplete | backend/app/api/api_v1/jobs.py:96-102 | polls that each draw at least 1 bring a running job to completed at 100 after at most 100 of them, and keep a completed one so |
| SqlPage.Page | backend/app/api/api_v1/endpoints/jobs.py:68 | PostgreSQL refuses the query with `DataError` exactly when the offset or the limit is negative, naming the offset first; otherwise the page holds only rows of the query, never more of them (also backend/app/api/api_v1/endpoints/projects.py:116) |
| SqlPage.PageContents | backend/app/api/api_v1/endpoints/jobs.py:68 | with non-negative bounds the query succeeds, and the page is the `limit` rows after the first `skip`, in query order, or all that remain (also backend/app/api/api_v1/endpoints/projects.py:116) |
| Tally.Keys | backend/app/api/api_v1/endpoints/jobs.py:250-255 | the dictionary's keys in insertion order, one per entry |
| Tally.Bump | backend/app/api/api_v1/endpoints/jobs.py:252 | a bump adds at most one entry (also backend/app/api/api_v1/endpoints/jobs.py:255) |
| Tally.BumpEffect | backend/app/api/api_v1/endpoints/jobs.py:252 | `d[k] = d.get(k, 0) + 1` raises the key's count by one, leaves every other count alone, adds one to the total, and keeps each key once (also backend/app/api/api_v1/endpoints/jobs.py:255) |
| Tally.TalliedCounts | backend/app/api/api_v1/endpoints/jobs.py:250-255 | counting a list gives each distinct element once, with its number of occurrences, and the counts add up to the list's length |
| Tally.TalliedSnoc | backend/app/api/api_v1/endpoints/jobs.py:250-255 | counting one more element is one more bump |
| Tally.CountAppend | backend/app/api/api_v1/endpoints/jobs.py:250-255 | occurrences in a concatenation add up |
| JobEndpoints.FindJob | backend/app/api/api_v1/endpoints/jobs.py:111 | the row found is the first with the id, and none is found only when no row has it (also backend/app/api/api_v1/endpoints/jobs.py:151) |
| JobEndpoints.ProjectJobs | backend/app/api/api_v1/endpoints/jobs.py:239 | exactly the project's jobs |
| JobEndpoints.ProjectJobsAppend | backend/app/api/api_v1/endpoints/jobs.py:239 | the project filter keeps query order and multiplicity: filtering a concatenation concatenates the filtered parts |
| JobEndpoints.Filtered | backend/app/api/api_v1/endpoints/jobs.py:59-66 | the rows kept are exactly those every truthy filter accepts |
| JobEndpoints.FilteredAppend | backend/app/api/api_v1/endpoints/jobs.py:59-66 | the filters keep query order and multiplicity: filtering a concatenation concatenates the filtered parts |
| JobEndpoints.Statuses | backend/app/api/api_v1/endpoints/jobs.py:252 | the jobs' statuses, position by position |
| JobEndpoints.Types | backend/app/api/api_v1/endpoints/jobs.py:255 | the jobs' types, position by position |
| JobEndpoints.JobTable.constructor | backend/app/api/api_v1/endpoints/jobs.py:151 | the table holds the given rows |
| JobEndpoints.JobTable.ListJobs | backend/app/api/api_v1/endpoints/jobs.py:35-93 | a negative skip or limit is answered with 500 "Failed to list jobs: " and the database's refusal; otherwise every job listed passes the filters, and the listing is the `limit` passing jobs after the first `skip`, in query order |
| JobEndpoints.JobTable.GetJob | backend/app/api/api_v1/endpoints/jobs.py:96-133 | 404 "Job not found" exactly when no row has the id, else a stored row with that id |
| JobEndpoints.JobTable.CancelJob | backend/app/api/api_v1/endpoints/jobs.py:136-183 | 404 for an unknown id; 400 with nothing changed unless the first row with the id is pending or running; otherwise only that row's status becomes cancelled and the reply says so |
| JobEndpoints.JobTable.ProjectJobsStatus | backend/app/api/api_v1/endpoints/jobs.py:223-263 | the loop's answer is the project's summary: the job count, the counts by status and by type, and the mean progress |
| JobEndpoints.SummaryByStatus | backend/app/api/api_v1/endpoints/jobs.py:241-261 | the per-status counts add up to `total_jobs`, each status appears once with the number of jobs that have it, and with no job the overall progress is 0 |
| JobEndpoints.StatusKeys | backend/app/api/api_v1/endpoints/jobs.py:250-252 | the statuses counted are exactly those of the project's jobs |
| JobEndpoints.SummaryByType | backend/app/api/api_v1/endpoints/jobs.py:250-255 | the per-type counts add up to `total_jobs`, and each type appears once with the number of jobs of that type |
| JobEndpoints.TypeKeys | backend/app/api/api_v1/endpoints/jobs.py:254-255 | the types counted are exactly those of the project's jobs |
| JobEndpoints.SummaryStep | backend/app/api/api_v1/endpoints/jobs.py:250-258 | one more job in the loop is one more bump of each counter and one more term of the total |
| JobEndpoints.OverallProgressBounded | backend/app/api/api_v1/endpoints/jobs.py:257-261 | with every job's progress between 0 and 1, so is the overall progress |
| JobEndpoints.MeanBounded | backend/app/api/api_v1/endpoints/jobs.py:261 | a total of at most n, divided by n, is between 0 and 1 |
| JobEndpoints.TotalBounded | backend/app/api/api_v1/endpoints/jobs.py:257-258 | with every progress between 0 and 1, the total is between 0 and the number of jobs |
| JobEndpoints.CancelOnce | backend/app/api/api_v1/endpoints/jobs.py:159-167 | after a successful cancel the row is still found under its id and is no longer cancellable, so a second cancel gets 400 |
| JobEndpoints.FindAfterUpdate | backend/app/api/api_v1/endpoints/jobs.py:151 | changing a row but not its id keeps every lookup's answer (also backend/app/api/api_v1/endpoints/jobs.py:166) |
| GcpWorker.ResultsFor | gcp-deployment/colmap-worker/main.py:144-148 | the three download URLs all lie under `/models/<job_id>/` |
| GcpWorker.GpuWorker.constructor | gcp-deployment/colmap-worker/main.py:56 | the job dictionary starts empty |
| GcpWorker.GpuWorker.UploadVideo | gcp-deployment/colmap-worker/main.py:103-127 | a queued job with the request's project, video and quality is stored under `job_<YYYYmmdd_HHMMSS>` of the first clock reading, replacing any job under that id, and the reply names that id and the stored creation time |
| GcpWorker.GpuWorker.GetJobStatus | gcp-deployment/colmap-worker/main.py:129-150 | 404 "Job not found" for an unknown id; otherwise only that job advances one step, and the reply is the advanced job |
| GcpWorker.PollTransitions | gcp-deployment/colmap-worker/main.py:137-148 | a poll moves queued to processing and processing to completed, leaves any other status alone, sets the results only on the step to completed, and keeps what the upload stored |
| GcpWorker.TwoPollsComplete | gcp-deployment/colmap-worker/main.py:110-118 | a fresh upload is completed with its three URLs after exactly two polls and stays so under further polls (also gcp-deployment/colmap-worker/main.py:137-148) |
| GcpWorker.SharedIdIffSameSecond | gcp-deployment/colmap-worker/main.py:106 | two uploads get the same id, so the later replaces the earlier, exactly when their clock readings fall in the same second (also gcp-deployment/colmap-worker/main.py:110) |
| GcpWorker.Stamp | gcp-deployment/colmap-worker/main.py:106 | the stamp has at least 15 characters, all digits apart from underscores |
| GcpWorker.JobId | gcp-deployment/colmap-worker/main.py:106 | the id starts with `job_`, has at least 19 characters, and after the prefix holds only digits and underscores |
| GcpWorker.StampFields | gcp-deployment/colmap-worker/main.py:106 | each field of a valid clock reading sits at its fixed place in the 15-character stamp |
| Paths.LastIndex | backend/app/services/file_manager.py:51 | the position found holds the character and none after it does; none is found only when the character is absent (also backend/app/services/file_manager.py:163) |
| Paths.Components | backend/app/services/file_manager.py:51 | the components `pathlib` keeps are non-empty parts other than `.` (also backend/app/services/file_manager.py:163) |
| Paths.LStrip | backend/app/services/file_manager.py:163 | `lstrip('.')` leaves no leading dot and never lengthens the text |
| Paths.Suffix | backend/app/services/file_manager.py:51 | the suffix is empty, or a dot followed by at least one character and no further dot, taken from the end of a longer name |
| Paths.PathExtension | backend/app/services/file_manager.py:163 | the extension holds no dot and no upper-case letter |
| Paths.NameOfPlain | backend/app/services/file_manager.py:51 | a single-component name is its own `Path.name` (also backend/app/services/file_manager.py:163) |
| Paths.SuffixOf | backend/app/services/file_manager.py:51 | `stem.ext` with a non-empty stem and a dotless extension has the suffix `.ext` |
| Paths.LastDotOf | backend/app/services/file_manager.py:51 | in `stem.ext` with a dotless extension, the last dot is the one before the extension |
| Paths.PathExtensionOf | backend/app/services/file_manager.py:163 | `validate_file_format` reads an ordinary `stem.ext` name as the extension lower-cased |
| Paths.LowerKeepsDots | backend/app/services/file_manager.py:163 | lower-casing neither adds nor removes dots |
| Paths.NoSuffix | backend/app/services/file_manager.py:51 | a name without a dot, a dotfile whose only dot leads, and a name ending in a dot all have the empty suffix (also backend/app/services/file_manager.py:163) |
| Paths.SplitExtensionWithoutDot | backend/app/api/api_v1/endpoints/files.py:40 | `split('.')[-1]` reads the whole name, lower-cased, when there is no dot |
| Paths.SplitExtension | backend/app/api/api_v1/endpoints/files.py:40 | the extension holds no dot and no upper-case letter and is no longer than the file name |
| Paths.BareName | backend/app/api/api_v1/endpoints/files.py:40 | a bare `mp4` is the extension `mp4` to the splitting rule and no extension to pathlib (also backend/app/services/file_manager.py:163) |
| Paths.Dotfile | backend/app/api/api_v1/endpoints/files.py:40 | a dotfile `.mp4` is the extension `mp4` to the splitting rule and no extension to pathlib (also backend/app/services/file_manager.py:163) |
| Paths.RulesDiffer | backend/app/api/api_v1/endpoints/files.py:40 | the two extension rules disagree: a bare `mp4` or a dotfile `.mp4` is `mp4` for the upload endpoint but has no extension for `validate_file_format` (also backend/app/services/file_manager.py:163) |
| FileManager.RemovedTree | backend/app/services/file_manager.py:117-128 | after `rmtree` nothing is left under the removed directory |
| FileManager.LayoutPaths | backend/app/services/file_manager.py:78-91 | the ten directories come in the dictionary's order under distinct keys, the first the project directory and each other at its path below it |
| FileManager.LayoutDistinct | backend/app/services/file_manager.py:78-91 | the ten paths are distinct and all lie under the project directory |
| FileManager.ChildInjective | backend/app/services/file_manager.py:47 | different names under one directory give different paths (also backend/app/services/file_manager.py:53) |
| FileManager.ValidFormatRule | backend/app/services/file_manager.py:152-164 | `stem.ext` is valid exactly when its lower-cased extension is allowed; a bare name or a dotfile is valid only when the empty extension is allowed |
| FileManager.FileService.constructor | backend/app/services/file_manager.py:22-26 | the service sees the given disk |
| FileManager.FileService.MakeDirs | backend/app/services/file_manager.py:48 | `mkdir(parents=True, exist_ok=True)` succeeds exactly when neither the directory nor one above it is a file, and then adds the directory and all above it; otherwise nothing changes (also backend/app/services/file_manager.py:95) |
| FileManager.FileService.CreateProjectDirectories | backend/app/services/file_manager.py:67-102 | files are never touched and no directory goes away; the call succeeds exactly when none of the ten directories is blocked, and then returns the layout with all ten existing |
| FileManager.FileService.SaveUploadedFile | backend/app/services/file_manager.py:28-65 | the save succeeds exactly when the directory can be made and the target is not a directory; then the file of the given size is at `uploads/project_<id>/<type>/<uuid><suffix>` and the directories above it exist; a failure writes no file |
| FileManager.FileService.FileSize | backend/app/services/file_manager.py:137-150 | a file's size, and 0 for a missing path |
| FileManager.FileService.CleanupProjectFiles | backend/app/services/file_manager.py:104-135 | the upload, output and temp directories of the project are removed in that order, each only if it exists, stopping with False at the first that is a file |
| FileManager.UploadTargetsDiffer | backend/app/services/file_manager.py:51-53 | two uploads drawing different uuids never share a target, whatever their file names |
| FileManager.AncestorAbove | backend/app/services/file_manager.py:48 | a path lies strictly under each directory above it |
| FileManager.RootAbove | backend/app/services/file_manager.py:117-128 | a path strictly under a root has the root among the directories above it |
| FileManager.UnderTransitive | backend/app/services/file_manager.py:117-128 | lying under a directory is transitive |
| FileManager.RemovedConsistent | backend/app/services/file_manager.py:117-128 | removing a tree keeps every surviving path's directories in place |
| FileManager.CleanupEffect | backend/app/services/file_manager.py:104-135 | a cleanup that answers True leaves nothing under the project's directories; one that answers False met a file at one of them; every path outside them is untouched, and nothing is ever added |
| FileManager.Cleaned | backend/app/services/file_manager.py:104-135 | cleanup only removes; a True answer leaves none of the roots on disk, a False answer means one of the roots was a file |
| FileManager.FileService.ArchivedAsWritten | backend/app/services/file_manager.py:179-211 | the path returned is the requested path or the default one, not necessarily the archive written |
| FileManager.ArchiveReturnsOtherPathAsWritten | backend/app/services/file_manager.py:200-207 | for a requested path without a dot, the archive written is `<path>.zip` while the path returned is `<path>` |
| FileManager.FileService.ArchiveProject | backend/app/services/file_manager.py:179-211 | a missing project directory, an empty name or a failing `make_archive` changes nothing and raises; otherwise the zip of the given size is written and its own path returned |
| FileManager.ZipPathKept | backend/app/services/file_manager.py:191-192 | for a path ending in `.zip`, the default one included, the archive written is the path requested (also backend/app/services/file_manager.py:200-207) |
| FileManager.Zipped | backend/app/services/file_manager.py:200-202 | the archive written always ends in `.zip` and is at most four characters longer than the path; a path without a suffix just gains `.zip` |
| FileManager.ArchiveWrite | backend/app/services/file_manager.py:179-211 | an archive is written exactly when the project directory exists, the target has a name and the archiver succeeds, and its path ends in `.zip`; a missing project directory is a FileNotFoundError |
| FileManager.PlainName | backend/app/services/file_manager.py:192 | a stem and a tail without a slash make a single-component name |
| FileEndpoints.ValidationOrder | backend/app/api/api_v1/endpoints/files.py:39-57 | the format check answers 400 whatever the size and project, the size check 400 whatever the project, and an upload passes all checks exactly when its format is allowed, its size is at most the maximum and the project exists |
| FileEndpoints.FormatRule | backend/app/api/api_v1/endpoints/files.py:40-41 | the format is the lower-cased text after the last dot of the name; a name without any dot is read whole, so a file named `mp4` is accepted |
| FileEndpoints.SplitAtLastDot | backend/app/api/api_v1/endpoints/files.py:40 | `split('.')[-1]` of `stem.ext`, with a dotless `ext`, is `ext` |
| FileEndpoints.UploadVideo | backend/app/api/api_v1/endpoints/files.py:22-76 | a refused upload answers the first failed check and changes nothing; otherwise the file is saved under the uuid-based name and the project's video path is set to it, or a failed save answers 500 and leaves the table and the files as they were |
| FileEndpoints.ExtractFrames | backend/app/api/api_v1/endpoints/files.py:79-128 | 404 for an unknown project and 400 when its video path is empty or missing on disk, with no change; a processor error answers 500 and changes nothing; otherwise only the project's frames path and frame count change, and the reply carries them |
| FileEndpoints.DownloadFile | backend/app/api/api_v1/endpoints/files.py:131-173 | 404 for an unknown project; a file is served only when it exists on disk and is the path held in the column of the type asked for |
| FileEndpoints.DownloadDispatch | backend/app/api/api_v1/endpoints/files.py:153-167 | for a known project, a download succeeds exactly for the five types whose column is set to an existing path; every refusal is a 404 |
| FileEndpoints.ListedExactly | backend/app/api/api_v1/endpoints/files.py:196-215 | every listed entry exists and carries its size; a type is listed exactly when its column is set to an existing path, and no type is listed twice |
| FileEndpoints.KindIndex | backend/app/api/api_v1/endpoints/files.py:207-215 | every listed entry comes from one of the types checked |
| FileEndpoints.ListProjectFiles | backend/app/api/api_v1/endpoints/files.py:176-220 | 404 for an unknown project; otherwise the loop over the five types returns exactly the existing files, in the endpoint's order |
| ProjectRows.FindProject | backend/app/api/api_v1/endpoints/files.py:55-57 | the lookup finds the first row carrying the id, or reports that no row carries it (also backend/app/api/api_v1/endpoints/projects.py:156-162) |
| ProjectRows.FindAfterUpdate | backend/app/api/api_v1/endpoints/files.py:65-66 | rewriting a row's columns without touching its id leaves every lookup's answer unchanged (also backend/app/api/api_v1/endpoints/projects.py:204-212) |
| DemoProjects.Date | backend/app/api/api_v1/projects.py:91 | `updated_at[:10]` is the first ten characters of the time text, or the whole text when it is shorter (also backend/app/api/api_v1/projects.py:119) |
| DemoProjects.Cards | backend/app/api/api_v1/projects.py:80-94 | one card per key listed, each the card of the project stored under that key, in the dictionary's order |
| DemoProjects.DemoProjectStore.constructor | backend/app/api/api_v1/projects.py:17-59 | three projects seeded under the keys "1" to "3": a completed one with one scan, a processing one and a draft, the last two without scans |
| DemoProjects.DemoProjectStore.ListProjects | backend/app/api/api_v1/projects.py:80-94 | the loop over the dictionary's values returns the cards of all projects in insertion order |
| DemoProjects.DemoProjectStore.CreateProject | backend/app/api/api_v1/projects.py:96-121 | the new key is the number after the count of projects and is never already taken; the project is added as a draft without scans, nothing else changes, and the reply is its card |
| DemoProjects.DemoProjectStore.GetProject | backend/app/api/api_v1/projects.py:123-130 | 404 exactly for an unknown key; otherwise the project stored under it |
| DemoProjects.DemoProjectStore.CreateScan | backend/app/api/api_v1/projects.py:132-154 | 404 with no change for an unknown key; otherwise a draft scan numbered after the existing ones is appended and the project's update time moves, with the store's invariant kept |
| DemoProjects.DemoProjectStore.StartProcessing | backend/app/api/api_v1/projects.py:178-193 | 404 with no change for an unknown key; otherwise only the project's status, now "processing", and its update time change |
| DemoProjects.DemoProjectStore.Get3dModel | backend/app/api/api_v1/projects.py:195-209 | a model is answered exactly for a known key, under `/static/models/<key>/` |
| DemoProjects.Nave | backend/app/api/api_v1/projects.py:18-38 | the first seed has id 1, is completed and has one scan numbered "1" |
| DemoProjects.Casa | backend/app/api/api_v1/projects.py:39-48 | the second seed has id 2, is processing and has no scans |
| DemoProjects.Plaza | backend/app/api/api_v1/projects.py:49-58 | the third seed has id 3, is a draft and has no scans |
| DemoProjects.FreshKey | backend/app/api/api_v1/projects.py:99 | when the keys are "1" to "n", the key n + 1 is not among them |
| DemoProjects.ScanIdsDistinct | backend/app/api/api_v1/projects.py:140 | scans numbered after their predecessors never share an id |
| DemoProjects.CardIdsAreKeys | backend/app/api/api_v1/projects.py:84-86 | each listed card's id is the key its project is stored under |
| DemoProjects.UploadLimit | backend/app/api/api_v1/projects.py:156-176 | 404 for an unknown project comes first; a known size above 1 GiB is refused with 413; an upload is accepted exactly for a known project and a known size of at most 1 GiB, and the receipt repeats the name and size |
| DemoProjects.DemoProjectStore.UploadVideo | backend/app/api/api_v1/projects.py:156-176 | a refusal is 404, 413 or 500, and 500 exactly for a known project whose size is unknown; an accepted upload is marked "uploaded" and is at most 1 GiB |
| ProjectEndpoints.CreateProject | backend/app/api/api_v1/endpoints/projects.py:46-95 | the new row, owned by user 1, with no files and the default status, is appended under the id sequence's next value, and the sequence advances by one; the reply is that row exactly when none of its directories is blocked, otherwise 500 with the row kept; no file changes |
| ProjectEndpoints.CreatedRowFound | backend/app/api/api_v1/endpoints/projects.py:69-71 | while every id lies below the sequence's next value, after the insert the new id finds the new row, every other id finds what it found before, ids stay unique, and every id lies below the advanced sequence (also backend/app/api/api_v1/endpoints/projects.py:156) |
| ProjectEndpoints.FoundAtEnd | backend/app/api/api_v1/endpoints/projects.py:69-71 | an id absent from the table is found at the appended row |
| ProjectEndpoints.FindInPrefix | backend/app/api/api_v1/endpoints/projects.py:69-71 | appending a row with another id leaves a lookup's answer unchanged |
| ProjectEndpoints.GetProject | backend/app/api/api_v1/endpoints/projects.py:141-175 | 404 exactly when no row carries the id; otherwise a row of the table with that id |
| ProjectEndpoints.ListProjects | backend/app/api/api_v1/endpoints/projects.py:98-138 | a negative offset or limit is answered with 500 "Failed to list projects: " and the database's refusal; otherwise only rows of the table are listed, exactly the rows from the offset on, at most the limit of them, in table order |
| ProjectEndpoints.PatchExact | backend/app/api/api_v1/endpoints/projects.py:204-210 | an update sets each given field to its value, keeps each field not given and every other column, is idempotent, and an empty update changes nothing |
| ProjectEndpoints.UpdateProject | backend/app/api/api_v1/endpoints/projects.py:178-233 | 404 with no change for an unknown id; otherwise only the found row is patched and the reply is the patched row |
| ProjectEndpoints.DeleteProject | backend/app/api/api_v1/endpoints/projects.py:236-270 | 404 with no change for an unknown id; otherwise the project's directories are cleaned up and its row removed, all other rows kept in order |
| ProjectEndpoints.DeletedIdNotReissued | backend/app/api/api_v1/endpoints/projects.py:248 | a deleted id and every remaining id lie below the id sequence's next value, so the next project created never takes the deleted id or any other id in the table (also backend/app/api/api_v1/endpoints/projects.py:69-71) |
| ProjectEndpoints.DeleteRemoves | backend/app/api/api_v1/endpoints/projects.py:248 | with unique ids, after the delete the id is no longer found, exactly one row is gone, every other row remains, and ids stay unique (also backend/app/api/api_v1/endpoints/projects.py:262) |
| ProjectEndpoints.RemovedIndex | backend/app/api/api_v1/endpoints/projects.py:262 | each position of the table without the deleted row holds the row before or after the gap |
| ProjectEndpoints.StartReconstruction | backend/app/api/api_v1/endpoints/projects.py:273-337 | 404 for an unknown project and 400 without frames, both with no change; otherwise the project is marked processing and the start is acknowledged, or, when the pipeline cannot be built, it is marked failed and the answer is 500 |
| ProjectEndpoints.RestartAccepted | backend/app/api/api_v1/endpoints/projects.py:290-306 | a start keeps the project findable at the same row with its frames, so repeating it is never refused with 404 or 400 |
| ProjectEndpoints.Percentage | backend/app/api/api_v1/endpoints/projects.py:369 | 0 while the total is not positive; within 0 to 100 when the processed count is within the total; 100 exactly when all frames are processed |
| ProjectEndpoints.GetProjectStatus | backend/app/api/api_v1/endpoints/projects.py:340-375 | 404 exactly for an unknown id; otherwise the row's status, frame counts and their percentage |
| MainService.CloudLookups | main.py:768-786 | the results name the point cloud's type and URL exactly when a cloud kind was found and its copy came before any storage failure |
| MainService.OtherLookups | main.py:788-811 | the model archive URL and the sample images directory are present exactly when made before any storage failure, and the error entry exactly when storage failed |
| MainService.ParentJoin | main.py:1566 | joining `../<other>/<name>` to a path appends the three components |
| MainService.ParentNormalize | main.py:1576 | resolving `<root>/<job>/../<other>/<name>` gives `<root>/<other>/<name>` |
| Processor.LineReading | colmap_processor.py:405-411 | a line yields a count exactly when it mentions "Matched" and "pairs" and holds a number |
| Processor.Scan | colmap_processor.py:322-334 | the loop over no candidates ends at (0, 0); otherwise on a candidate's index |
| Processor.PlyName | colmap_processor.py:289 | the exported file is named `point_cloud.ply` (also colmap_processor.py:459) |
| Text.Padded | main.py:165 | `{:06d}` writes at least one and at least the width of decimal digits (also colmap-worker/main.py:145) |
| Text.ParsePadded | main.py:165 | reading back a zero-padded decimal gives the number written (also colmap-worker/main.py:145) |
| Text.Split | backend/app/api/api_v1/endpoints/files.py:40 | `split` always yields at least one piece |
| Text.SplitPiecesLackSeparator | backend/app/api/api_v1/endpoints/files.py:40 | no piece of a split holds the separator or is longer than the text |
| Text.LastPiece | backend/app/api/api_v1/endpoints/files.py:40 | `split('.')[-1]` holds no dot and is no longer than the name |
| Text.SplitWithoutSeparator | backend/app/api/api_v1/endpoints/files.py:40 | a text without the separator splits into itself alone |
| Text.SplitAtFirst | backend/app/api/api_v1/endpoints/files.py:40 | the text before the first separator is the first piece, and the rest splits as the text after it |
| Text.Lower | backend/app/api/api_v1/endpoints/files.py:40 | lower-casing keeps the length |
| Text.GlobMatches | python-colmap-service/main.py:256-257 | `Path.glob("*<ext>")` yields exactly the listed names ending in the extension, names starting with a dot included, and no more names than listed (also backend/app/api/api_v1/endpoints/files.py:117) |
| Text.PathJoin | python-colmap-service/main.py:120 | joining an absolute name gives the name itself; a relative one lands under the directory |

## Left out

- External tools (ffmpeg, COLMAP, pycolmap, OpenCV, `zipfile`, `shutil.make_archive`): only their outcomes and what they leave on disk are modelled, never their algorithms or file formats.
- Concurrency: background tasks and `await` are modelled as plain sequential calls. The Celery tasks under `backend/app/tasks/` are not part of this model.
- Clocks, `uuid4()` and `random.randint`: every reading is a parameter. Where the source reads the clock twice in one step, the model takes a single reading.
- Floating point: the thumbnail aspect ratio, the frame-extraction progress ratio, statistics ratios, processing times and the `:.1f` megabyte texts are left out. `int(fps / frame_rate)` in the pycolmap worker is taken as an integer input.
- WorkerMain.ExtractFramesFromVideo: does not model the progress and message set every tenth kept frame, which come from a floating-point ratio; the final progress and message are modelled.
- ProjectEndpoints.Percentage: is exact real arithmetic, so it ignores float rounding, which can differ in the last digit.
- JobEndpoints.JobTable.ProjectJobsStatus: the overall progress is likewise an exact `real`, not a float.
- Health, readiness, COLMAP-check and GPU probes, and main.py's other routes (database status, demo setup, duplicate cleanup, thumbnails, users and projects pass-throughs, demo resources): these are wiring or host inspection around the modelled core.
- `get_job_logs` (backend/app/api/api_v1/endpoints/jobs.py:187-221): it only formats canned log lines from a row, including a float percentage.
- The Cloud Run worker's `download_file` (gcp-deployment/colmap-worker/main.py:152): a mock reply with no state or rule.
- `get_available_space` and the `modified` time that `list_project_files` reports: both read operating-system statistics.
- ISO time texts: times are opaque texts or seconds. `isoformat()` is not modelled beyond `DemoProjects.Date`'s ten-character prefix.
- `main.py`'s `finally` clause, which removes the job's work directory (main.py:750-754): the work directory after a run is not modelled.
- Paths are POSIX, and symlinks are not resolved: `download_result` walks the path through existing directories and checks containment on the lexically normalised result, which agrees with `resolve()` only without symlinks.
- Directory creation that fails halfway: `mkdir` either makes the whole chain or fails without change.
- Zip archives: only their path and size are modelled, not their contents.
- `glob`, `iterdir` and directory listings: their order is an input, as the operating system gives it.
- Text: `str.lower()` and `str.upper()` are modelled on ASCII only.
- Json.Encode: writes characters above U+FFFF as they are, where `ensure_ascii` writes a `\ud8xx\udcxx` surrogate pair.
- Json.Encode: its contract distinguishes strings and arrays by their first and last characters; that an object opens with `{` and a number or literal does not is left to the decode round trip.
- ServiceMain.UploadVideo: the reply path is a plain join; pathlib's collapsing of repeated slashes and `.` components is not modelled.
- PycolmapPipeline.Run, PycolmapPipeline.RunCompletePipeline, WorkerMain.OutDir, WorkerMain.ImagesDir, WorkerMain.FramesTask, WorkerMain.FramesTaskProgress, WorkerMain.ExtractFramesTask, WorkerMain.LayoutOf, WorkerPipeline.RunResult, ServiceMain.FfmpegCommand, ServiceMain.ReconstructionResults, ServiceMain.LaterSteps, ServiceMain.ResultKeys: join a project id taken from a request body or form with a plain `/`; an absolute project id, which pathlib would let replace the directory, is not modelled. Project ids taken from a URL path cannot hold `/`, so their joins are exact.
- `mkdir(parents=True, exist_ok=True)` at colmap-worker/main.py:278, 311 and 579 and at python-colmap-service/main.py:312 is assumed to succeed. The only directory creation of the service's background tasks with a failure path is `images_dir.mkdir` (python-colmap-service/main.py:253), through ServiceMain.FrameExtraction's `mkdirError`.
- FileEndpoints.UploadVideo: takes `file.size` as a number; Starlette's `UploadFile.size` may be `None`, and then the comparison at backend/app/api/api_v1/endpoints/files.py:48 raises `TypeError`, which the model does not capture.
- Json.Decode: reads `\u` escapes of single code points below U+10000 but not surrogate pairs, and not every JSON text `json.loads` accepts (floats, exponents, whitespace other than spaces).
- Exception texts: `str(e)` of a `CalledProcessError` and other exceptions is an opaque input text. A missing tool binary raises `FileNotFoundError` rather than `CalledProcessError` or `RuntimeError`; the model folds that case into the tool's failure (Processor.ToolError, ServicePipeline.FailureKinds, WorkerMain.RunCall).
- `app/models/project.py`, `app/models/job.py` and `app/services/colmap_pipeline.py` are not part of this model. The default project status, the job enum members other than those the endpoints name, and whether building the backend pipeline raises are inputs.
- JobEndpoints.JobTable.ListJobs: assumes every status enum value is non-empty text, so that a given status always filters.
- `ProjectResponse` rendering (the ISO dates and optional columns of a reply) is not modelled; the replies carry the row.
- JobEndpoints.JobTable.ListJobs: the 500 detail for a negative bound carries PostgreSQL's message only, without the driver's exception class and the SQL echo that `str(e)` adds.
- ProjectEndpoints.ListProjects: the same holds for its 500 detail.
- ProjectEndpoints.CreateProject: the sequence's upper bound and a value consumed by an insert that fails are not modelled; an insert always succeeds.
- The seed scan of the demo projects stored without a description is modelled with `None` for it.
- Files outside the core: `open3d_utils*.py`, `generate_thumbnails.py`, `main_ultra_simple.py`, `test_backend.py`, `backend/app/core/`, `backend/app/main.py`, `backend/app/demo_auth.py` and `backend/app/services/video_processor.py` are not part of this model.

## Findings

| source | as written | input that shows it | evidently intended | confidence | as-written member | corrected member |
|---|---|---|---|---|---|---|
| main.py:579-581 | `db.update_scan_status(scan_id, "processing", str(thumbnail_dest))` passes three arguments to the two-parameter method at database.py:249 | any job with a scan id whose extraction keeps at least 15 frames (extraction then has saved a thumbnail) | record the scan as processing and go on to feature extraction | not executed | MainService.ScanJobsFailAsWritten | MainService.RunStages |
| python-colmap-service/main.py:318-321 | `COLMAPPipeline(images_path=..., output_path=...)`, while python-colmap-service/colmap_pipeline.py:20 takes no arguments; with that fixed, `pipeline.extract_features()` (main.py:338) still raises AttributeError, as the class defines only `run_full_pipeline` and the private async `_extract_features` and its siblings | any job whose images directory holds a `.jpg` | build the pipeline and run the reconstruction steps, each step standing for one COLMAP run | not executed | ServiceMain.ReconstructionNeverCompletesAsWritten | ServiceMain.ProcessReconstruction |
| colmap-worker/main.py:413-416, colmap-worker/main.py:437-439 | the 400 `HTTPException` for a non-video content type is raised inside the `try` and caught by `except Exception` | an upload with content type `text/plain` | answer 400 "Invalid file type" | not executed | WorkerMain.NotAVideoIsServerErrorAsWritten | WorkerMain.UploadVideo |
| backend/app/services/file_manager.py:200-207 | the archive is written at `archive_path.with_suffix('')` + `.zip`, but `archive_path` itself is returned | `archive_path` = `/backups/p1`, or any path whose suffix is not `.zip` | return the path of the archive actually written | not executed | FileManager.ArchiveReturnsOtherPathAsWritten | FileManager.FileService.ArchiveProject |
| colmap-worker/colmap_pipeline.py:249 | the undistorter's `--input_path` is `<project>/0`, while the mapper writes its model under `<project>/sparse` (lines 409-410), in `<project>/sparse/0` | any run with dense reconstruction requested whose required stages succeed | undistort the model at `<project>/sparse/0` | not executed | WorkerPipeline.DenseMissesModelAsWritten | WorkerPipeline.DenseReadsSparseModel |
