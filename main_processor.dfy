/** `COLMAPProcessor` of the GPU worker service (main.py): frame sampling
    from a video, the quality tiers of feature extraction and matching, the
    choice of the sparse model to export or densify, and the statistics
    read after reconstruction. A work directory is the state of the object:
    the frame files, the thumbnail, the listing of `sparse/`, and the two
    point-cloud files with their sizes. COLMAP runs are given as outcomes. */
module MainProcessor {
  import opened Wrappers
  import opened Sampling
  import opened SparseModels

  // ---------------------------------------------------------------------
  // Quality tiers

  datatype ExtractionSettings = ExtractionSettings(maxImageSize: nat, maxNumFeatures: nat, numThreads: nat)

  datatype MatchingSettings = MatchingSettings(matcher: string, maxNumMatches: nat, crossCheck: bool, guidedMatching: bool)

  /** `run_feature_extraction`: low and medium by name, everything else high. */
  function FeatureSettings(quality: string): (r: ExtractionSettings)
    ensures r.numThreads == 12 && r.maxNumFeatures == 8 * r.maxImageSize
    ensures r.maxImageSize == 8192 <==> quality != "low" && quality != "medium"
    ensures 2048 <= r.maxImageSize <= 8192
  {
    if quality == "low" then ExtractionSettings(2048, 16384, 12)
    else if quality == "medium" then ExtractionSettings(4096, 32768, 12)
    else ExtractionSettings(8192, 65536, 12)
  }

  /** `run_feature_matching`: always exhaustive with cross-check; the cap grows with the tier. */
  function MatchSettings(quality: string): (r: MatchingSettings)
    ensures r.matcher == "exhaustive_matcher" && r.crossCheck && r.guidedMatching
    ensures r.maxNumMatches == 4 * FeatureSettings(quality).maxNumFeatures
  {
    if quality == "low" then MatchingSettings("exhaustive_matcher", 65536, true, true)
    else if quality == "medium" then MatchingSettings("exhaustive_matcher", 131072, true, true)
    else MatchingSettings("exhaustive_matcher", 262144, true, true)
  }

  /** A tier name that is neither low nor medium, known or not, takes the high branch. */
  lemma UnknownTierIsHigh(quality: string)
    requires quality != "low" && quality != "medium"
    ensures FeatureSettings(quality) == FeatureSettings("high")
    ensures MatchSettings(quality) == MatchSettings("high")
  {
  }

  /** Every cap doubles from one tier to the next; the matcher never changes. */
  lemma TiersDouble()
    ensures FeatureSettings("medium").maxImageSize == 2 * FeatureSettings("low").maxImageSize
    ensures FeatureSettings("high").maxImageSize == 2 * FeatureSettings("medium").maxImageSize
    ensures FeatureSettings("medium").maxNumFeatures == 2 * FeatureSettings("low").maxNumFeatures
    ensures FeatureSettings("high").maxNumFeatures == 2 * FeatureSettings("medium").maxNumFeatures
    ensures MatchSettings("medium").maxNumMatches == 2 * MatchSettings("low").maxNumMatches
    ensures MatchSettings("high").maxNumMatches == 2 * MatchSettings("medium").maxNumMatches
    ensures forall q :: MatchSettings(q).matcher == "exhaustive_matcher" && MatchSettings(q).crossCheck
  {
  }

  // ---------------------------------------------------------------------
  // Frame sampling

  /** What OpenCV reports for a video: whether it opened, how many frames
      `read()` returns before it fails, and `CAP_PROP_FRAME_COUNT`, which
      need not agree with the frames actually readable. */
  datatype Video = Video(isOpened: bool, frames: nat, reportedCount: int)

  /** `cap.isOpened()` guards the loop: a video that did not open yields no frame. */
  function Readable(v: Video): nat
  {
    if v.isOpened then v.frames else 0
  }

  /** `max(1, frame_count // max_frames)`, with Python's floor division. */
  function Interval(frameCount: int, maxFrames: nat): (r: nat)
    requires maxFrames > 0
    ensures r >= 1
    ensures frameCount / maxFrames >= 1 ==> r == frameCount / maxFrames
  {
    if frameCount / maxFrames > 1 then frameCount / maxFrames else 1
  }

  /** The number of frames `extract_frames` writes and returns. */
  function ExtractedCount(v: Video, maxFrames: nat): nat
    requires maxFrames > 0
  {
    |Kept(Readable(v), Interval(v.reportedCount, maxFrames))|
  }

  /** The sampling keeps frame k exactly when k is a multiple of the interval,
      and the number written is ceil(readable / interval). */
  lemma ExtractedFrames(v: Video, maxFrames: nat)
    requires maxFrames > 0
    ensures var interval := Interval(v.reportedCount, maxFrames);
      ExtractedCount(v, maxFrames) == (Readable(v) + interval - 1) / interval &&
      forall k :: k in Kept(Readable(v), interval) <==> 0 <= k < Readable(v) && k % interval == 0
  {
    KeptCount(Readable(v), Interval(v.reportedCount, maxFrames));
    KeptMembers(Readable(v), Interval(v.reportedCount, maxFrames));
  }

  /** Every written frame is a frame read: no frames come from a video that did not open. */
  lemma NothingFromUnopenedVideo(v: Video, maxFrames: nat)
    requires maxFrames > 0 && !v.isOpened
    ensures ExtractedCount(v, maxFrames) == 0
  {
  }

  /** Each job needs 15 frames; reaching them means a first frame was read,
      so the thumbnail was written. */
  lemma FifteenFramesMeanThumbnail(v: Video, maxFrames: nat)
    requires maxFrames > 0 && ExtractedCount(v, maxFrames) >= 15
    ensures Readable(v) > 0
  {
  }

  // ---------------------------------------------------------------------
  // Statistics over the sparse directory

  /** The row counts of COLMAP's own database (cameras, images, keypoints, matches, two-view geometries). */
  datatype ColmapCounts = ColmapCounts(cameras: nat, images: nat, keypoints: nat, matches: nat, verified: nat)

  datatype Stats = Stats(numCameras: nat, numImages: nat, numKeypoints: nat, numMatches: nat,
                         numVerified: nat, num3dPoints: nat)

  /** The statistics scan: walk the listing and keep a directory with
      points3D.bin only when its size is STRICTLY larger than the best so far,
      starting from 0. None when no directory has a positive size. */
  function StrictBest(entries: seq<Entry>): (r: Option<nat>)
    ensures r.Some? ==> r.value < |entries| && HasFile(entries[r.value], "points3D.bin")
  {
    if entries == [] then None
    else
      var prev := StrictBest(entries[..|entries| - 1]);
      var best := if prev.Some? then PointsSize(entries[prev.value]) else 0;
      var last := entries[|entries| - 1];
      if HasFile(last, "points3D.bin") && PointsSize(last) > best then Some(|entries| - 1) else prev
  }

  /** The largest points3D.bin size in a listing, 0 for none. */
  function MaxPointsSize(entries: seq<Entry>): (m: nat)
    ensures forall i | 0 <= i < |entries| :: PointsSize(entries[i]) <= m
    ensures m > 0 ==> exists i | 0 <= i < |entries| :: PointsSize(entries[i]) == m
  {
    if entries == [] then 0
    else
      var m := MaxPointsSize(entries[..|entries| - 1]);
      var last := PointsSize(entries[|entries| - 1]);
      if last > m then last else m
  }

  /** The strict scan finds nothing exactly when every size is 0, and otherwise
      the FIRST directory of largest size. */
  lemma {:induction false} StrictBestIsFirstLargest(entries: seq<Entry>)
    ensures StrictBest(entries).None? <==> MaxPointsSize(entries) == 0
    ensures StrictBest(entries).Some? ==>
      var k := StrictBest(entries).value;
      PointsSize(entries[k]) == MaxPointsSize(entries) &&
      forall i | 0 <= i < k :: PointsSize(entries[i]) < PointsSize(entries[k])
  {
    if entries != [] {
      var init := entries[..|entries| - 1];
      StrictBestIsFirstLargest(init);
      assert forall i | 0 <= i < |init| :: init[i] == entries[i];
    }
  }

  /** `num_3d_points`: the best size divided by 43 bytes per point, 0 without a best. */
  function PointEstimate(entries: seq<Entry>): (n: nat)
    ensures n * 43 <= MaxPointsSize(entries) < (n + 1) * 43
  {
    StrictBestIsFirstLargest(entries);
    if StrictBest(entries).Some? then MaxPointsSize(entries) / 43 else 0
  }

  /** The statistics `get_reconstruction_stats` reports for a listing. */
  function StatsFor(counts: Option<ColmapCounts>, models: seq<Entry>): (r: Option<Stats>)
    ensures r.None? <==> counts.None?
    ensures r.Some? ==> r.value.num3dPoints * 43 <= MaxPointsSize(models) < (r.value.num3dPoints + 1) * 43
  {
    if counts.None? then None
    else
      var c := counts.value;
      Some(Stats(c.cameras, c.images, c.keypoints, c.matches, c.verified, PointEstimate(models)))
  }

  class Processor {
    /** Frame files written to `images/`. */
    var images: set<string>
    /** `thumbnail_path` is set and the thumbnail written. */
    var thumbnail: bool
    /** The listing of `sparse/` that the mapper left. */
    var sparse: seq<Entry>
    /** `sparse_point_cloud.ply` and its size, when present. */
    var sparsePly: Option<nat>
    /** `dense/fused.ply` and its size, when present. */
    var fused: Option<nat>

    /** A fresh work directory with empty `images/`, `sparse/` and `dense/`. */
    constructor ()
      ensures images == {} && !thumbnail && sparse == [] && sparsePly.None? && fused.None?
    {
      images, thumbnail, sparse, sparsePly, fused := {}, false, [], None, None;
    }

    /** `extract_frames`: read frames until the video runs out; the first read
        frame becomes the thumbnail; frame k is written as the next
        `frame_NNNNNN.jpg` exactly when k % interval == 0. */
    method ExtractFrames(video: Video, maxFrames: nat) returns (extracted: nat)
      requires maxFrames > 0
      modifies this
      ensures extracted == ExtractedCount(video, maxFrames)
      ensures images == old(images) + FrameSet(extracted)
      ensures thumbnail == (old(thumbnail) || Readable(video) > 0)
      ensures sparse == old(sparse) && sparsePly == old(sparsePly) && fused == old(fused)
    {
      var interval := Interval(video.reportedCount, maxFrames);
      var readable := Readable(video);
      extracted := 0;
      var frameIdx := 0;
      var firstFrameSaved := false;
      while frameIdx < readable
        invariant frameIdx <= readable
        invariant extracted == |Kept(frameIdx, interval)|
        invariant images == old(images) + FrameSet(extracted)
        invariant firstFrameSaved == (frameIdx > 0)
        invariant thumbnail == (old(thumbnail) || frameIdx > 0)
        invariant sparse == old(sparse) && sparsePly == old(sparsePly) && fused == old(fused)
      {
        if !firstFrameSaved {
          thumbnail := true;
          firstFrameSaved := true;
        }
        if frameIdx % interval == 0 {
          assert FrameSet(extracted + 1) == FrameSet(extracted) + {FrameName(extracted)};
          images := images + {FrameName(extracted)};
          extracted := extracted + 1;
        }
        frameIdx := frameIdx + 1;
      }
    }

    /** `run_sparse_reconstruction`: the mapper's exit status decides; the
        listing it leaves in `sparse/` is an input. */
    method RunSparseReconstruction(mapper: ToolOutcome, leaves: seq<Entry>) returns (ok: bool)
      modifies this
      ensures ok == mapper.ToolOk? && sparse == leaves
      ensures images == old(images) && thumbnail == old(thumbnail) && sparsePly == old(sparsePly) && fused == old(fused)
    {
      sparse := leaves;
      ok := mapper.ToolOk?;
    }

    /** The model directories the exporters accept, gathered in listing order. */
    method CompleteSparseModels() returns (models: seq<Entry>)
      ensures models == CompleteModels(sparse)
    {
      models := [];
      var i := 0;
      while i < |sparse|
        invariant i <= |sparse|
        invariant models == CompleteModels(sparse[..i])
      {
        assert sparse[..i + 1][..i] == sparse[..i];
        if IsCompleteModel(sparse[i]) {
          models := models + [sparse[i]];
        }
        i := i + 1;
      }
      assert sparse[..i] == sparse;
    }

    /** `export_sparse_to_ply`: None without a complete model; otherwise the
        converter runs on the model with the largest points3D.bin (the first
        such in listing order) and the PLY path is returned when the converter
        succeeded and left the file. */
    method ExportSparseToPly(converter: ToolOutcome, leaves: Option<nat>)
      returns (ply: bool, input: Option<Entry>)
      modifies this
      ensures input == LargestModel(CompleteModels(old(sparse)))
      ensures input.None? ==> !ply && sparsePly == old(sparsePly)
      ensures input.Some? ==> sparsePly == leaves && ply == (converter.ToolOk? && leaves.Some?)
      ensures images == old(images) && thumbnail == old(thumbnail) && sparse == old(sparse) && fused == old(fused)
    {
      var models := CompleteSparseModels();
      input := LargestModel(models);
      if input.None? {
        ply := false;
        return;
      }
      sparsePly := leaves;
      ply := converter.ToolOk? && leaves.Some?;
    }

    /** `run_dense_reconstruction`. On a CPU-only host it only re-exports the
        sparse PLY. Otherwise it needs a complete model, then undistortion,
        stereo and fusion must each succeed; fusion's output file is not
        checked. */
    method RunDenseReconstruction(cpuOnly: bool, converter: ToolOutcome, plyLeaves: Option<nat>,
                                  undistort: ToolOutcome, stereo: ToolOutcome, fusion: ToolOutcome,
                                  fusedLeaves: Option<nat>)
      returns (ok: bool)
      modifies this
      ensures cpuOnly ==> ok == (CompleteModels(old(sparse)) != [] && converter.ToolOk? && plyLeaves.Some?)
      ensures !cpuOnly ==>
        ok == (CompleteModels(old(sparse)) != [] && undistort.ToolOk? && stereo.ToolOk? && fusion.ToolOk?)
      ensures !cpuOnly ==> sparsePly == old(sparsePly)
      ensures !cpuOnly ==>
        fused == if CompleteModels(old(sparse)) != [] && undistort.ToolOk? && stereo.ToolOk? then fusedLeaves else old(fused)
      ensures cpuOnly ==> fused == old(fused)
      ensures images == old(images) && thumbnail == old(thumbnail) && sparse == old(sparse)
    {
      if cpuOnly {
        var ply, _ := ExportSparseToPly(converter, plyLeaves);
        ok := ply;
        return;
      }
      var models := CompleteSparseModels();
      if models == [] {
        ok := false;
        return;
      }
      if undistort.ToolFail? || stereo.ToolFail? {
        ok := false;
        return;
      }
      fused := fusedLeaves;
      ok := fusion.ToolOk?;
    }

    /** `get_reconstruction_stats`: None when COLMAP's database cannot be read;
        otherwise its counts and the point estimate of the strictly largest model. */
    method GetReconstructionStats(counts: Option<ColmapCounts>) returns (r: Option<Stats>)
      ensures r == StatsFor(counts, sparse)
    {
      if counts.None? {
        return None;
      }
      var best: Option<nat> := None;
      var maxPoints := 0;
      var i := 0;
      while i < |sparse|
        invariant i <= |sparse|
        invariant best == StrictBest(sparse[..i])
        invariant maxPoints == if best.Some? then PointsSize(sparse[best.value]) else 0
      {
        assert sparse[..i + 1][..i] == sparse[..i];
        var d := sparse[i];
        if HasFile(d, "points3D.bin") && PointsSize(d) > maxPoints {
          maxPoints := PointsSize(d);
          best := Some(i);
        }
        i := i + 1;
      }
      assert sparse[..i] == sparse;
      StrictBestIsFirstLargest(sparse);
      var num3d := if best.Some? then maxPoints / 43 else 0;
      var c := counts.value;
      r := Some(Stats(c.cameras, c.images, c.keypoints, c.matches, c.verified, num3d));
    }
  }

  // ---------------------------------------------------------------------
  // The two selectors of this file compared

  /** When every directory holding points3D.bin also holds cameras.bin and
      some size is positive, the exporter's `max` and the statistics' strict
      scan settle on equally large models. */
  lemma SelectorsAgreeOnCompleteListings(entries: seq<Entry>)
    requires forall i | 0 <= i < |entries| :: HasFile(entries[i], "points3D.bin") ==> IsCompleteModel(entries[i])
    requires MaxPointsSize(entries) > 0
    ensures LargestModel(CompleteModels(entries)).Some?
    ensures StrictBest(entries).Some?
    ensures PointsSize(LargestModel(CompleteModels(entries)).value) == PointsSize(entries[StrictBest(entries).value])
  {
    StrictBestIsFirstLargest(entries);
    var k := StrictBest(entries).value;
    assert entries[k] in entries;
    var models := CompleteModels(entries);
    assert entries[k] in models;
    var chosen := LargestModel(models).value;
    assert chosen in models;
    var j :| 0 <= j < |entries| && entries[j] == chosen;
  }

  /** The statistics scan does not ask for cameras.bin, the exporter does:
      a directory with only points3D.bin counts for one and not the other. */
  lemma SelectorsDifferWithoutCameras()
    ensures var lone := Entry("0", true, map["points3D.bin" := 430]);
      StrictBest([lone]) == Some(0) && LargestModel(CompleteModels([lone])).None? && PointEstimate([lone]) == 10
  {
    var lone := Entry("0", true, map["points3D.bin" := 430]);
    assert !IsCompleteModel(lone);
    assert CompleteModels([lone]) == CompleteModels([]) + [];
  }
}
