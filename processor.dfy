/** `COLMAPProcessor` of colmap_processor.py: the ffmpeg and COLMAP steps of
    one job workspace (`/workspace/<job>` with `images/`, `database.db`,
    `sparse/`, `dense/`), the quality tables that parameterise them, the
    choice of the best sparse model, the statistics read from the tools'
    output, and the five-step `process_video_to_pointcloud`. Every tool run
    is given as its outcome; what the tools leave on disk is given with it. */
module Processor {
  import opened Wrappers
  import opened Text
  import opened Sampling
  import opened Sorting
  import opened SparseModels

  // ---------------------------------------------------------------------
  // Quality tables: low, medium and high by name, any other tier as medium

  predicate KnownTier(quality: string)
  {
    quality == "low" || quality == "medium" || quality == "high"
  }

  /** The width of ffmpeg's `scale=<w>:-2` filter (`scale_map.get(quality, "1920:-2")`). */
  function ScaleWidth(quality: string): (r: nat)
    ensures r == 1280 <==> quality == "low"
    ensures r == 3840 <==> quality == "high"
    ensures r == 1920 <==> quality != "low" && quality != "high"
  {
    if quality == "low" then 1280 else if quality == "high" then 3840 else 1920
  }

  /** The `-vf` argument of the ffmpeg call: one frame every `interval` seconds, scaled. */
  function FrameFilter(interval: nat, quality: string): string
  {
    "fps=1/" + Decimal(interval) + ",scale=" + Decimal(ScaleWidth(quality)) + ":-2"
  }

  datatype FeatureCaps = FeatureCaps(maxNumFeatures: nat, maxImageSize: nat)

  /** `extract_features`' table, `quality_params.get(quality, quality_params["medium"])`. */
  function FeatureCapsFor(quality: string): (r: FeatureCaps)
    ensures r.maxNumFeatures == 8 * r.maxImageSize
    ensures r.maxImageSize >= ScaleWidth(quality)
    ensures r.maxImageSize == 4096 <==> quality != "low" && quality != "high"
  {
    if quality == "low" then FeatureCaps(16384, 2048)
    else if quality == "high" then FeatureCaps(65536, 8192)
    else FeatureCaps(32768, 4096)
  }

  /** `match_features`' table, with the same fallback to medium. */
  function MatchCapFor(quality: string): (r: nat)
    ensures r == 2 * FeatureCapsFor(quality).maxNumFeatures
  {
    if quality == "low" then 32768 else if quality == "high" then 131072 else 65536
  }

  /** `sequential_matcher` for the type "sequential", `exhaustive_matcher` for anything else. */
  function MatcherFor(matchingType: string): (r: string)
    ensures r in {"sequential_matcher", "exhaustive_matcher"}
    ensures r == "sequential_matcher" <==> matchingType == "sequential"
  {
    if matchingType == "sequential" then "sequential_matcher" else "exhaustive_matcher"
  }

  /** An unknown tier gets exactly the medium settings in all three tables. */
  lemma UnknownTierIsMedium(quality: string)
    requires !KnownTier(quality)
    ensures ScaleWidth(quality) == ScaleWidth("medium")
    ensures FeatureCapsFor(quality) == FeatureCapsFor("medium")
    ensures MatchCapFor(quality) == MatchCapFor("medium")
  {
  }

  /** Each cap grows strictly from low to medium to high. */
  lemma TiersIncrease()
    ensures ScaleWidth("low") < ScaleWidth("medium") < ScaleWidth("high")
    ensures FeatureCapsFor("low").maxNumFeatures < FeatureCapsFor("medium").maxNumFeatures < FeatureCapsFor("high").maxNumFeatures
    ensures FeatureCapsFor("low").maxImageSize < FeatureCapsFor("medium").maxImageSize < FeatureCapsFor("high").maxImageSize
    ensures MatchCapFor("low") < MatchCapFor("medium") < MatchCapFor("high")
  {
  }

  // ---------------------------------------------------------------------
  // The best sparse model

  /** `sparse.glob("[0-9]*")` matches the entries whose name starts with a digit. */
  predicate DigitNamed(e: Entry)
  {
    |e.name| > 0 && IsDigit(e.name[0])
  }

  function DigitEntries(listing: seq<Entry>): (r: seq<Entry>)
    ensures forall e :: e in r <==> e in listing && DigitNamed(e)
  {
    if listing == [] then []
    else
      var last := listing[|listing| - 1];
      DigitEntries(listing[..|listing| - 1]) + (if DigitNamed(last) then [last] else [])
  }

  function NameOf(e: Entry): string
  {
    e.name
  }

  /** `sorted(...)` of the matched paths: siblings compare by name. */
  function Candidates(listing: seq<Entry>): seq<Entry>
  {
    SortBy(DigitEntries(listing), NameOf)
  }

  /** `points3D.bin` size // 48, the estimate of the model's point count; 0 without the file. */
  function PointCount(e: Entry): nat
  {
    if HasFile(e, "points3D.bin") then e.files["points3D.bin"] / 48 else 0
  }

  /** The loop of `_find_best_model` over the candidates: the first one is the
      default, and a later one replaces the best only with a STRICTLY larger
      count; the pair is (index, count). */
  function Scan(cands: seq<Entry>): (r: (nat, nat))
    ensures cands == [] ==> r == (0, 0)
    ensures cands != [] ==> r.0 < |cands|
  {
    if cands == [] then (0, 0)
    else
      var prev := Scan(cands[..|cands| - 1]);
      var last := PointCount(cands[|cands| - 1]);
      if last > prev.1 then (|cands| - 1, last) else prev
  }

  /** The scan finds a largest count and the first candidate holding it,
      and falls back to the first candidate when every count is 0. */
  lemma {:induction false} ScanFindsFirstLargest(cands: seq<Entry>)
    requires cands != []
    ensures var (k, p) := Scan(cands);
      p == PointCount(cands[k]) &&
      (forall i | 0 <= i < |cands| :: PointCount(cands[i]) <= p) &&
      (forall i | 0 <= i < k :: PointCount(cands[i]) < p) &&
      (p == 0 ==> k == 0)
  {
    var init := cands[..|cands| - 1];
    if init != [] {
      ScanFindsFirstLargest(init);
      assert forall i | 0 <= i < |init| :: init[i] == cands[i];
    }
  }

  datatype ModelStats = ModelStats(numModels: nat, points3d: nat, modelId: string)

  /** `_find_best_model`: None (with `{}`) when no candidate exists; otherwise
      the chosen directory and its statistics. */
  function BestModel(listing: seq<Entry>): (r: Option<(Entry, ModelStats)>)
    ensures r.None? <==> forall e | e in listing :: !DigitNamed(e)
  {
    var cands := Candidates(listing);
    SortByCorrect(DigitEntries(listing), NameOf);
    if cands == [] then
      assert forall e | e in listing :: e in DigitEntries(listing) <==> DigitNamed(e);
      assert forall e | e in DigitEntries(listing) :: e in multiset(cands);
      None
    else
      var (k, p) := Scan(cands);
      assert cands[k] in multiset(DigitEntries(listing));
      assert cands[k] in DigitEntries(listing);
      Some((cands[k], ModelStats(|cands|, p, cands[k].name)))
  }

  /** The chosen directory is a `[0-9]*` entry with a largest count; every
      candidate sorting before it has a strictly smaller count; the stats
      report the number of candidates, the count and the name. */
  lemma BestModelIsLargest(listing: seq<Entry>)
    requires BestModel(listing).Some?
    ensures var (best, stats) := BestModel(listing).value;
      var cands := Candidates(listing);
      best in listing && DigitNamed(best) &&
      stats == ModelStats(|cands|, PointCount(best), best.name) &&
      (forall e | e in listing && DigitNamed(e) :: PointCount(e) <= PointCount(best)) &&
      (forall e | e in listing && DigitNamed(e) && PointCount(e) == PointCount(best) :: LexLe(best.name, e.name))
  {
    var digits := DigitEntries(listing);
    var cands := Candidates(listing);
    SortByCorrect(digits, NameOf);
    ScanFindsFirstLargest(cands);
    var (k, p) := Scan(cands);
    assert cands[k] in multiset(digits);
    forall e | e in listing && DigitNamed(e) ensures PointCount(e) <= p {
      assert e in multiset(cands);
    }
    forall e | e in listing && DigitNamed(e) && PointCount(e) == p ensures LexLe(cands[k].name, e.name) {
      assert e in multiset(cands);
      var j :| 0 <= j < |cands| && cands[j] == e;
      if j == k {
        LexLeTotal(e.name, e.name);
      }
    }
  }

  /** The candidates' multiplicities follow the listing's, entry by entry. */
  lemma {:induction false} DigitEntriesMultiset(listing: seq<Entry>)
    ensures forall e :: multiset(DigitEntries(listing))[e] == if DigitNamed(e) then multiset(listing)[e] else 0
  {
    if listing != [] {
      var init, last := listing[..|listing| - 1], listing[|listing| - 1];
      DigitEntriesMultiset(init);
      assert listing == init + [last];
    }
  }

  /** The same directory listed in another order picks the same model:
      the choice depends only on names and sizes. */
  lemma BestModelIgnoresListingOrder(a: seq<Entry>, b: seq<Entry>)
    requires multiset(a) == multiset(b)
    requires UniqueKeys(multiset(a), NameOf)
    ensures BestModel(a) == BestModel(b)
  {
    DigitEntriesMultiset(a);
    DigitEntriesMultiset(b);
    var da, db := DigitEntries(a), DigitEntries(b);
    forall e ensures multiset(da)[e] == multiset(db)[e] {
    }
    assert multiset(da) == multiset(db);
    forall e ensures multiset(da)[e] <= multiset(a)[e] {
    }
    assert multiset(da) <= multiset(a);
    UniqueKeysSub(multiset(a), multiset(da), NameOf);
    SortByIgnoresInputOrder(da, db, NameOf);
  }

  // ---------------------------------------------------------------------
  // Statistics read from the tools' output

  /** What reading COLMAP's own database yields in `_parse_feature_stats`:
      no database file, a failure at the first or the second query, or both counts. */
  datatype FeatureDb = NoDatabase | KeypointsUnreadable | ImagesUnreadable(keypoints: nat) | FeatureCounts(keypoints: nat, images: nat)

  datatype FeatureStats = FeatureStats(status: string, numImages: Option<nat>, totalKeypoints: Option<nat>, avgFeaturesPerImage: Option<nat>)

  /** What reading the database yields in `_parse_match_stats`: no file, a failed query, or the two-view-geometry count. */
  datatype MatchDb = NoMatchDatabase | GeometriesUnreadable | Geometries(verified: nat)

  datatype MatchStats = MatchStats(status: string, matchedPairs: Option<nat>, verifiedPairs: Option<nat>)

  /** "success" when the tool's output mentions "Database", else "unknown". */
  function StatusOf(output: string): string
  {
    if Contains(output, "Database") then "success" else "unknown"
  }

  /** Line i mentions "Database:" and is not the last line. */
  predicate DatabaseLineAt(lines: seq<string>, i: nat)
  {
    i + 1 < |lines| && Contains(lines[i], "Database:")
  }

  /** Some "Database:" line has a successor. */
  predicate MentionsDatabase(lines: seq<string>)
  {
    exists i | 0 <= i < |lines| :: DatabaseLineAt(lines, i)
  }

  /** The feature statistics: the image count from the glob when a
      "Database:" line is followed by another line; then the database's
      counts, which override it, and their floor average when there are
      images. */
  function FeatureStatsOf(output: string, jpgCount: nat, db: FeatureDb): (r: FeatureStats)
    ensures r.avgFeaturesPerImage.Some? <==> db.FeatureCounts? && db.images > 0
    ensures r.avgFeaturesPerImage.Some? ==>
      r.avgFeaturesPerImage.value * db.images <= db.keypoints < (r.avgFeaturesPerImage.value + 1) * db.images
    ensures db.FeatureCounts? ==> r.numImages == Some(db.images) && r.totalKeypoints == Some(db.keypoints)
    ensures !db.FeatureCounts? ==>
      r.numImages == if MentionsDatabase(Split(output, '\n')) then Some(jpgCount) else None
  {
    var lines := Split(output, '\n');
    var globbed := if MentionsDatabase(lines) then Some(jpgCount) else None;
    match db
    case NoDatabase => FeatureStats(StatusOf(output), globbed, None, None)
    case KeypointsUnreadable => FeatureStats(StatusOf(output), globbed, None, None)
    case ImagesUnreadable(k) => FeatureStats(StatusOf(output), globbed, Some(k), None)
    case FeatureCounts(k, n) => FeatureStats(StatusOf(output), Some(n), Some(k), if n > 0 then Some(k / n) else None)
  }

  /** A line reporting matched pairs: it mentions "Matched" and "pairs" and holds a number. */
  predicate PairsLine(line: string)
  {
    Contains(line, "Matched") && Contains(line, "pairs") && FirstNumber(line).Some?
  }

  function PairsIn(line: string): nat
    requires PairsLine(line)
  {
    ParseNat(FirstNumber(line).value)
  }

  /** What one line contributes: its number when it is a pairs line. */
  function LineReading(line: string): (r: Option<nat>)
    ensures r.Some? <==> PairsLine(line)
  {
    if PairsLine(line) then Some(PairsIn(line)) else None
  }

  /** The readings of all lines, in order. */
  function Readings(lines: seq<string>): (r: seq<Option<nat>>)
    ensures |r| == |lines| && forall i | 0 <= i < |lines| :: r[i] == LineReading(lines[i])
  {
    seq(|lines|, i requires 0 <= i < |lines| => LineReading(lines[i]))
  }

  /** The last reading present: each pairs line overwrites the previous count. */
  function LastSome(xs: seq<Option<nat>>): (r: Option<nat>)
  {
    if xs == [] then None
    else if xs[|xs| - 1].Some? then xs[|xs| - 1] else LastSome(xs[..|xs| - 1])
  }

  /** Nothing present means nothing kept; otherwise the kept value is present
      at a position after which nothing else is. */
  lemma {:induction false} LastSomeIsLast(xs: seq<Option<nat>>)
    ensures LastSome(xs).None? <==> forall i | 0 <= i < |xs| :: xs[i].None?
    ensures LastSome(xs).Some? ==> exists i | 0 <= i < |xs| ::
      LastSome(xs) == xs[i] && forall j | i < j < |xs| :: xs[j].None?
  {
    if xs != [] {
      var n := |xs| - 1;
      var init := xs[..n];
      LastSomeIsLast(init);
      if xs[n].None? && LastSome(init).Some? {
        var i :| 0 <= i < n && LastSome(init) == init[i] && forall j | i < j < n :: init[j].None?;
        assert LastSome(xs) == xs[i];
      }
    }
  }

  /** No line reports matched pairs. */
  predicate NoPairsLine(lines: seq<string>)
  {
    forall i | 0 <= i < |lines| :: !PairsLine(lines[i])
  }

  /** `matched_pairs`: the number on the last line reporting matched pairs. */
  function LastPairs(lines: seq<string>): Option<nat>
  {
    LastSome(Readings(lines))
  }

  /** No pairs line means no count; otherwise the count is read from a pairs
      line after which no other pairs line follows. */
  lemma LastPairsIsLast(lines: seq<string>)
    ensures LastPairs(lines).None? <==> NoPairsLine(lines)
    ensures LastPairs(lines).Some? ==> exists i | 0 <= i < |lines| ::
      PairsLine(lines[i]) && LastPairs(lines).value == PairsIn(lines[i]) &&
      forall j | i < j < |lines| :: !PairsLine(lines[j])
  {
    var rs := Readings(lines);
    LastSomeIsLast(rs);
    if LastPairs(lines).Some? {
      var i :| 0 <= i < |rs| && LastSome(rs) == rs[i] && forall j | i < j < |rs| :: rs[j].None?;
      assert PairsLine(lines[i]);
    }
  }

  /** `_parse_match_stats`: the status from the output, the count of the
      last line reporting matched pairs, and the verified count exactly when
      the database answered. */
  function MatchStatsOf(output: string, db: MatchDb): (r: MatchStats)
    ensures r.status == "success" <==> Contains(output, "Database")
    ensures r.verifiedPairs.Some? <==> db.Geometries?
    ensures db.Geometries? ==> r.verifiedPairs.value == db.verified
    ensures r.matchedPairs.None? <==> NoPairsLine(Split(output, '\n'))
    ensures var lines := Split(output, '\n');
      r.matchedPairs.Some? ==> exists i | 0 <= i < |lines| ::
        PairsLine(lines[i]) && r.matchedPairs.value == PairsIn(lines[i]) &&
        forall j | i < j < |lines| :: !PairsLine(lines[j])
  {
    LastPairsIsLast(Split(output, '\n'));
    MatchStats(StatusOf(output), LastPairs(Split(output, '\n')), if db.Geometries? then Some(db.verified) else None)
  }

  // ---------------------------------------------------------------------
  // The workspace

  /** A tool error: `subprocess.CalledProcessError`, re-raised with the tool's stderr. */
  function ToolError(outcome: ToolOutcome): Error
    requires outcome.ToolFail?
  {
    Error("CalledProcessError", outcome.stderr)
  }

  /** `str(best_model)` for the result of `sparse_reconstruction`; "None" when there is no model. */
  function ModelPath(jobPath: string, best: Option<(Entry, ModelStats)>): string
  {
    if best.None? then "None" else jobPath + "/sparse/" + best.value.0.name
  }

  datatype SparseResult = SparseResult(modelPath: string, stats: Option<ModelStats>)

  class Workspace {
    /** `/workspace/<job>` or whatever path the processor was opened on. */
    const jobPath: string
    /** The `*.jpg` files of `images/`. */
    var images: set<string>
    /** The listing of `sparse/`, in the order the filesystem returns it. */
    var sparse: seq<Entry>
    /** Files written to the job directory itself (the exported clouds). */
    var outputs: set<string>

    /** `COLMAPProcessor(job_path)`: the directories are created when missing,
        and what they already hold stays. */
    constructor (path: string, images0: set<string>, sparse0: seq<Entry>, outputs0: set<string>)
      ensures jobPath == path && images == images0 && sparse == sparse0 && outputs == outputs0
    {
      jobPath, images, sparse, outputs := path, images0, sparse0, outputs0;
    }

    /** `extract_frames`: ffmpeg writes `frame_000001.jpg` up to at most
        `max_frames` files; on success the count of ALL `*.jpg` files in
        `images/` is returned, leftovers of an earlier run included. */
    method ExtractFrames(ffmpeg: ToolOutcome, selected: nat, maxFrames: nat) returns (r: Result<nat>)
      modifies this
      ensures ffmpeg.ToolFail? ==> r == Err(ToolError(ffmpeg)) && images == old(images)
      ensures ffmpeg.ToolOk? ==> images == old(images) + FfmpegFrames(Min(selected, maxFrames)) && r == Ok(|images|)
      ensures sparse == old(sparse) && outputs == old(outputs)
    {
      if ffmpeg.ToolFail? {
        return Err(ToolError(ffmpeg));
      }
      images := images + FfmpegFrames(Min(selected, maxFrames));
      r := Ok(|images|);
    }

    /** `_parse_feature_stats`: the line scan stops at the first "Database:"
        line that has a successor. */
    method ParseFeatureStats(output: string, db: FeatureDb) returns (stats: FeatureStats)
      ensures stats == FeatureStatsOf(output, |images|, db)
    {
      var lines := Split(output, '\n');
      var globbed: Option<nat> := None;
      var i: nat := 0;
      while i < |lines|
        invariant i <= |lines|
        invariant globbed.None? ==> forall j | 0 <= j < i :: !DatabaseLineAt(lines, j)
        invariant globbed.Some? ==> globbed == Some(|images|) && DatabaseLineAt(lines, i)
        invariant globbed.Some? ==> i < |lines|
      {
        if Contains(lines[i], "Database:") && i + 1 < |lines| {
          globbed := Some(|images|);
          break;
        }
        i := i + 1;
      }
      if globbed.Some? {
        assert DatabaseLineAt(lines, i);
      }
      assert globbed == if MentionsDatabase(lines) then Some(|images|) else None;
      var status := StatusOf(output);
      match db
      case NoDatabase => stats := FeatureStats(status, globbed, None, None);
      case KeypointsUnreadable => stats := FeatureStats(status, globbed, None, None);
      case ImagesUnreadable(k) => stats := FeatureStats(status, globbed, Some(k), None);
      case FeatureCounts(k, n) =>
        var avg := if n > 0 then Some(k / n) else None;
        stats := FeatureStats(status, Some(n), Some(k), avg);
    }

    /** `_parse_match_stats`: every pairs line overwrites the count. */
    method ParseMatchStats(output: string, db: MatchDb) returns (stats: MatchStats)
      ensures stats == MatchStatsOf(output, db)
    {
      var lines := Split(output, '\n');
      ghost var rs := Readings(lines);
      var pairs: Option<nat> := None;
      var i := 0;
      while i < |lines|
        invariant i <= |lines|
        invariant pairs == LastSome(rs[..i])
      {
        assert rs[..i + 1][..i] == rs[..i];
        var line := lines[i];
        if Contains(line, "Matched") && Contains(line, "pairs") {
          var number := FirstNumber(line);
          if number.Some? {
            pairs := Some(ParseNat(number.value));
          }
        }
        i := i + 1;
      }
      assert rs[..i] == rs;
      stats := MatchStats(StatusOf(output), pairs, if db.Geometries? then Some(db.verified) else None);
    }

    /** `extract_features`: the tool's failure is re-raised, its success read as statistics. */
    method ExtractFeatures(tool: ToolOutcome, output: string, db: FeatureDb) returns (r: Result<FeatureStats>)
      ensures tool.ToolFail? ==> r == Err(ToolError(tool))
      ensures tool.ToolOk? ==> r == Ok(FeatureStatsOf(output, |images|, db))
    {
      if tool.ToolFail? {
        return Err(ToolError(tool));
      }
      var stats := ParseFeatureStats(output, db);
      r := Ok(stats);
    }

    /** `match_features`. */
    method MatchFeatures(tool: ToolOutcome, output: string, db: MatchDb) returns (r: Result<MatchStats>)
      ensures tool.ToolFail? ==> r == Err(ToolError(tool))
      ensures tool.ToolOk? ==> r == Ok(MatchStatsOf(output, db))
    {
      if tool.ToolFail? {
        return Err(ToolError(tool));
      }
      var stats := ParseMatchStats(output, db);
      r := Ok(stats);
    }

    /** `_find_best_model`, with its loop over the sorted candidates. */
    method FindBestModel() returns (best: Option<(Entry, ModelStats)>)
      ensures best == BestModel(sparse)
    {
      var cands := Candidates(sparse);
      if cands == [] {
        return None;
      }
      var bestIndex, bestPoints := 0, 0;
      for i := 0 to |cands|
        invariant (bestIndex, bestPoints) == Scan(cands[..i])
      {
        assert cands[..i + 1][..i] == cands[..i];
        var count := PointCount(cands[i]);
        if count > bestPoints {
          bestIndex, bestPoints := i, count;
        }
      }
      assert cands[..|cands|] == cands;
      best := Some((cands[bestIndex], ModelStats(|cands|, bestPoints, cands[bestIndex].name)));
    }

    /** `sparse_reconstruction`: the mapper leaves a listing in `sparse/`;
        its failure is re-raised, its success reports the best model. */
    method SparseReconstruction(mapper: ToolOutcome, leaves: seq<Entry>) returns (r: Result<SparseResult>)
      modifies this
      ensures sparse == (if mapper.ToolOk? then leaves else old(sparse))
      ensures mapper.ToolFail? ==> r == Err(ToolError(mapper))
      ensures mapper.ToolOk? ==> r == Ok(SparseResult(ModelPath(jobPath, BestModel(leaves)),
                                                      if BestModel(leaves).Some? then Some(BestModel(leaves).value.1) else None))
      ensures images == old(images) && outputs == old(outputs)
    {
      if mapper.ToolFail? {
        return Err(ToolError(mapper));
      }
      sparse := leaves;
      var best := FindBestModel();
      r := Ok(SparseResult(ModelPath(jobPath, best), if best.Some? then Some(best.value.1) else None));
    }

    /** `export_point_cloud`: ValueError without a model; otherwise the
        converter writes `point_cloud.<format in lower case>` into the job
        directory, and the path is returned without checking the file. */
    method ExportPointCloud(format: string, converter: ToolOutcome) returns (r: Result<string>)
      modifies this
      ensures BestModel(sparse).None? ==> r == Err(Error("ValueError", "No reconstruction found to export")) && outputs == old(outputs)
      ensures BestModel(sparse).Some? && converter.ToolFail? ==> r == Err(ToolError(converter)) && outputs == old(outputs)
      ensures BestModel(sparse).Some? && converter.ToolOk? ==>
        r == Ok(Child(jobPath, "point_cloud." + Lower(format))) && outputs == old(outputs) + {"point_cloud." + Lower(format)}
      ensures images == old(images) && sparse == old(sparse)
    {
      var best := FindBestModel();
      if best.None? {
        return Err(Error("ValueError", "No reconstruction found to export"));
      }
      var name := "point_cloud." + Lower(format);
      if converter.ToolFail? {
        return Err(ToolError(converter));
      }
      outputs := outputs + {name};
      r := Ok(Child(jobPath, name));
    }
  }

  // ---------------------------------------------------------------------
  // `process_video_to_pointcloud`

  /** The outcome of every external step of one run, and what each leaves. */
  datatype Tools = Tools(ffmpeg: ToolOutcome, selected: nat,
                         features: ToolOutcome, featureOutput: string, featureDb: FeatureDb,
                         matcher: ToolOutcome, matchOutput: string, matchDb: MatchDb,
                         mapper: ToolOutcome, leaves: seq<Entry>,
                         converter: ToolOutcome)

  datatype Report = Report(jobId: string, frameCount: nat, featureStats: FeatureStats, matchStats: MatchStats,
                           reconstruction: SparseResult, outputFile: string)

  /** The exception that ends a run, if any: the first failing tool, or the
      missing model at export time. */
  function RunFailure(t: Tools): (r: Option<Error>)
    ensures r.None? <==> !t.ffmpeg.ToolFail? && !t.features.ToolFail? && !t.matcher.ToolFail? &&
                         !t.mapper.ToolFail? && BestModel(t.leaves).Some? && !t.converter.ToolFail?
    ensures r.Some? ==> r.value.kind in {"CalledProcessError", "ValueError"}
    ensures r.Some? && r.value.kind == "ValueError" <==>
      !t.ffmpeg.ToolFail? && !t.features.ToolFail? && !t.matcher.ToolFail? && !t.mapper.ToolFail? &&
      forall e | e in t.leaves :: !DigitNamed(e)
  {
    if t.ffmpeg.ToolFail? then Some(ToolError(t.ffmpeg))
    else if t.features.ToolFail? then Some(ToolError(t.features))
    else if t.matcher.ToolFail? then Some(ToolError(t.matcher))
    else if t.mapper.ToolFail? then Some(ToolError(t.mapper))
    else if BestModel(t.leaves).None? then Some(Error("ValueError", "No reconstruction found to export"))
    else if t.converter.ToolFail? then Some(ToolError(t.converter))
    else None
  }

  /** The `*.jpg` files after frame extraction. */
  function FramesAfter(images0: set<string>, t: Tools, maxFrames: nat): set<string>
  {
    images0 + FfmpegFrames(Min(t.selected, maxFrames))
  }

  /** The dictionary a run returns when no step raised. */
  function ReportOf(jobId: string, t: Tools, frames: set<string>): (r: Report)
    requires BestModel(t.leaves).Some?
    ensures r.jobId == jobId && r.frameCount == |frames|
    ensures r.outputFile == "/workspace/" + jobId + "/point_cloud.ply"
    ensures exists e | e in t.leaves && DigitNamed(e) ::
      r.reconstruction.modelPath == "/workspace/" + jobId + "/sparse/" + e.name &&
      r.reconstruction.stats.Some? && r.reconstruction.stats.value.points3d == PointCount(e) &&
      forall d | d in t.leaves && DigitNamed(d) :: PointCount(d) <= PointCount(e)
  {
    BestModelIsLargest(t.leaves);
    var jobPath := "/workspace/" + jobId;
    Report(jobId, |frames|, FeatureStatsOf(t.featureOutput, |frames|, t.featureDb), MatchStatsOf(t.matchOutput, t.matchDb),
           SparseResult(ModelPath(jobPath, BestModel(t.leaves)), Some(BestModel(t.leaves).value.1)),
           Child(jobPath, "point_cloud.ply"))
  }

  /** `process_video_to_pointcloud` on the workspace `/workspace/<job>`: the
      five steps in order; the first exception propagates and nothing is
      returned. Frames use the default interval 2 and the default quality,
      and matching is sequential at the default quality: only feature
      extraction sees the requested tier. */
  method ProcessVideoToPointcloud(jobId: string, t: Tools, maxFrames: nat,
                                  images0: set<string>, sparse0: seq<Entry>, outputs0: set<string>)
    returns (r: Result<Report>, w: Workspace)
    ensures fresh(w) && w.jobPath == "/workspace/" + jobId
    ensures RunFailure(t).Some? ==> r == Err(RunFailure(t).value)
    ensures RunFailure(t).None? ==>
      r == Ok(ReportOf(jobId, t, FramesAfter(images0, t, maxFrames))) &&
      w.images == FramesAfter(images0, t, maxFrames) && w.sparse == t.leaves && w.outputs == outputs0 + {"point_cloud.ply"}
  {
    w := new Workspace("/workspace/" + jobId, images0, sparse0, outputs0);
    var frames := w.ExtractFrames(t.ffmpeg, t.selected, maxFrames);
    if frames.Err? {
      return Err(frames.error), w;
    }
    var featureStats := w.ExtractFeatures(t.features, t.featureOutput, t.featureDb);
    if featureStats.Err? {
      return Err(featureStats.error), w;
    }
    var matchStats := w.MatchFeatures(t.matcher, t.matchOutput, t.matchDb);
    if matchStats.Err? {
      return Err(matchStats.error), w;
    }
    var recon := w.SparseReconstruction(t.mapper, t.leaves);
    if recon.Err? {
      return Err(recon.error), w;
    }
    PlyName();
    var ply := w.ExportPointCloud("PLY", t.converter);
    if ply.Err? {
      return Err(ply.error), w;
    }
    r := Ok(Report(jobId, frames.value, featureStats.value, matchStats.value, recon.value, ply.value));
  }

  /** `f"point_cloud.{'PLY'.lower()}"`. */
  lemma PlyName()
    ensures "point_cloud." + Lower("PLY") == "point_cloud.ply"
  {
    var l := Lower("PLY");
    assert l[0] == 'p' && l[1] == 'l' && l[2] == 'y';
    assert l == "ply";
  }

  /** The requested tier reaches feature extraction only: the matcher is
      always the sequential one at the medium cap, and frames are always
      scaled to 1920 pixels one every two seconds. */
  lemma PipelineDefaults()
    ensures MatcherFor("sequential") == "sequential_matcher" && MatchCapFor("medium") == 65536
    ensures ScaleWidth("medium") == 1920
  {
  }
}
