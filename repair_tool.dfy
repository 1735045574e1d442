/** The one-off repair script (fix_existing_reconstructions.py): for every
    job directory of `data/results` holding `sparse_model.zip`, pick the
    sparse model with the largest `points3D.bin`, re-export it to PLY, and
    keep the new point cloud only when it is at least half as large again
    as the current one. COLMAP's converter and the archive are inputs: what
    the converter leaves on disk, and the listing of the archive's
    `sparse/` directory. */
module RepairTool {
  import opened Wrappers
  import opened SparseModels

  /** What `sparse_model.zip` unpacks to: the listing of its `sparse/`
      directory, in the order `iterdir` yields it, or None when the archive
      has no `sparse/` directory. */
  datatype Archive = Archive(sparse: Option<seq<Entry>>)

  /** One run of `colmap model_converter`: whether it exits with 0, and the
      size of the PLY it leaves at the output path, if any. */
  datatype ExportRun = ExportRun(exitOk: bool, leaves: Option<nat>)

  /** The files of one job directory the script looks at, each with its size
      when present, and whether `temp_sparse/` exists. */
  datatype JobDir = JobDir(zip: Option<Archive>, ply: Option<nat>, oldPly: Option<nat>, newPly: Option<nat>,
                           temp: bool)

  /** An entry of `data/results`: a job directory, or anything else. */
  datatype Item = JobItem(dir: JobDir) | OtherItem

  // ---------------------------------------------------------------------
  // find_best_sparse_model

  /** The `(d, size)` candidates: directories holding `points3D.bin`, in
      listing order. */
  function PointModels(entries: seq<Entry>): (r: seq<Entry>)
    ensures forall e :: e in r <==> e in entries && HasFile(e, "points3D.bin")
  {
    if entries == [] then []
    else
      var last := entries[|entries| - 1];
      PointModels(entries[..|entries| - 1]) + (if HasFile(last, "points3D.bin") then [last] else [])
  }

  /** The directory `find_best_sparse_model` returns: None without the
      archive, without `sparse/`, or without a candidate; else the first
      candidate with the largest `points3D.bin`. */
  function BestSparseModel(zip: Option<Archive>): (r: Option<Entry>)
    ensures r.None? <==> zip.None? || zip.value.sparse.None? ||
                         forall e | e in zip.value.sparse.value :: !HasFile(e, "points3D.bin")
    ensures r.Some? ==> r.value in zip.value.sparse.value && HasFile(r.value, "points3D.bin")
  {
    if zip.None? || zip.value.sparse.None? then None
    else LargestModel(PointModels(zip.value.sparse.value))
  }

  /** The selection loop: the candidates are collected entry by entry, then
      Python's `max` picks among them. */
  method FindBestSparseModel(zip: Option<Archive>) returns (best: Option<Entry>)
    ensures best == BestSparseModel(zip)
  {
    if zip.None? || zip.value.sparse.None? {
      return None;
    }
    var entries := zip.value.sparse.value;
    var models: seq<Entry> := [];
    for i := 0 to |entries|
      invariant models == PointModels(entries[..i])
    {
      assert entries[..i + 1][..i] == entries[..i];
      if entries[i].isDir && "points3D.bin" in entries[i].files {
        models := models + [entries[i]];
      }
    }
    assert entries[..|entries|] == entries;
    best := LargestModel(models);
  }

  /** The chosen model holds `points3D.bin`, no directory of the listing
      has a larger one, every candidate listed before it is smaller (`max`
      keeps the first of equals), and none is chosen exactly when the
      archive, its `sparse/` directory or every candidate is missing. */
  lemma BestIsLargest(zip: Option<Archive>)
    ensures BestSparseModel(zip).None? <==>
      zip.None? || zip.value.sparse.None? || forall e | e in zip.value.sparse.value :: !HasFile(e, "points3D.bin")
    ensures BestSparseModel(zip).Some? ==>
      var best := BestSparseModel(zip).value;
      best in zip.value.sparse.value && HasFile(best, "points3D.bin") &&
      forall e | e in zip.value.sparse.value && HasFile(e, "points3D.bin") :: PointsSize(e) <= PointsSize(best)
    ensures BestSparseModel(zip).Some? ==>
      var entries := zip.value.sparse.value;
      var best := BestSparseModel(zip).value;
      exists k | 0 <= k < |entries| :: entries[k] == best &&
        forall i | 0 <= i < k && HasFile(entries[i], "points3D.bin") :: PointsSize(entries[i]) < PointsSize(best)
  {
    if zip.Some? && zip.value.sparse.Some? {
      var models := PointModels(zip.value.sparse.value);
      if models != [] {
        assert models[0] in models;
        FirstLargestInListing(zip.value.sparse.value);
      }
    }
  }

  /** `max` over the candidates keeps the first largest of the listing. */
  lemma FirstLargestInListing(entries: seq<Entry>)
    requires PointModels(entries) != []
    ensures var best := LargestModel(PointModels(entries)).value;
      exists k | 0 <= k < |entries| :: entries[k] == best &&
        forall i | 0 <= i < k && HasFile(entries[i], "points3D.bin") :: PointsSize(entries[i]) < PointsSize(best)
  {
    var models := PointModels(entries);
    var best := LargestModel(models).value;
    var kk :| 0 <= kk < |models| && models[kk] == best &&
              forall i :: 0 <= i < kk ==> PointsSize(models[i]) < PointsSize(best);
    assert best in entries;
    var k := FirstOccurrence(entries, best);
    PointModelsPrefix(entries, k);
    var before := PointModels(entries[..k]);
    PrefixBeforeBest(models, before, kk);
    forall i | 0 <= i < k && HasFile(entries[i], "points3D.bin")
      ensures PointsSize(entries[i]) < PointsSize(best)
    {
      assert entries[i] in entries[..k];
      assert entries[i] in before;
    }
  }

  /** A prefix of the candidates that does not reach the chosen one holds
      only smaller models. */
  lemma PrefixBeforeBest(models: seq<Entry>, before: seq<Entry>, kk: nat)
    requires before <= models && kk < |models| && models[kk] !in before
    requires forall i :: 0 <= i < kk ==> PointsSize(models[i]) < PointsSize(models[kk])
    ensures forall m | m in before :: PointsSize(m) < PointsSize(models[kk])
  {
    forall m | m in before
      ensures PointsSize(m) < PointsSize(models[kk])
    {
      var j :| 0 <= j < |before| && before[j] == m;
      assert models[j] == m;
    }
  }

  /** The first position of a listed value. */
  lemma {:induction false} FirstOccurrence(entries: seq<Entry>, x: Entry) returns (k: nat)
    requires x in entries
    ensures k < |entries| && entries[k] == x && x !in entries[..k]
  {
    if entries[0] == x {
      k := 0;
    } else {
      assert x in entries[1..];
      var k' := FirstOccurrence(entries[1..], x);
      k := k' + 1;
      assert entries[..k] == [entries[0]] + entries[1..][..k'];
    }
  }

  /** The candidates of a prefix of the listing are a prefix of its candidates. */
  lemma {:induction false} PointModelsPrefix(entries: seq<Entry>, i: nat)
    requires i <= |entries|
    ensures PointModels(entries[..i]) <= PointModels(entries)
    decreases |entries|
  {
    if i == |entries| {
      assert entries[..i] == entries;
    } else {
      var init := entries[..|entries| - 1];
      assert entries[..i] == init[..i];
      PointModelsPrefix(init, i);
    }
  }

  // ---------------------------------------------------------------------
  // export_to_ply and the replacement rule

  /** The size of `point_cloud_new.ply` after the converter ran. */
  function AfterExport(newPly: Option<nat>, run: ExportRun): Option<nat>
  {
    if run.leaves.Some? then run.leaves else newPly
  }

  /** `export_to_ply`: the converter exits with 0 and the output exists. */
  predicate Exported(newPly: Option<nat>, run: ExportRun)
  {
    run.exitOk && AfterExport(newPly, run).Some?
  }

  /** `current_size == 0 or new_size > current_size * 1.5`: the float
      product is exact for sizes below 2^52, which every file size on disk
      is. */
  predicate Replaces(current: nat, newSize: nat)
    ensures Replaces(current, newSize) && current > 0 ==> newSize > current
    ensures newSize >= 2 * current && newSize > 0 ==> Replaces(current, newSize)
  {
    current == 0 || 2 * newSize > 3 * current
  }

  /** What one pass of `main`'s loop leaves in a job directory, and whether
      it counts as fixed. Without a model the `continue` skips the cleanup,
      so `temp_sparse/` stays. */
  function Repaired(j: JobDir, run: ExportRun): (res: (JobDir, bool))
    ensures j.zip.None? ==> res == (j, false)
    ensures res.0.zip == j.zip
    ensures res.1 ==> BestSparseModel(j.zip).Some? && res.0.ply.Some? && res.0.newPly.None? && !res.0.temp
    ensures !res.1 ==> res.0.ply == j.ply && res.0.oldPly == j.oldPly
  {
    if j.zip.None? then (j, false)
    else if BestSparseModel(j.zip).None? then (j.(temp := true), false)
    else
      var current := if j.ply.Some? then j.ply.value else 0;
      var after := AfterExport(j.newPly, run);
      if !Exported(j.newPly, run) then (j.(newPly := after, temp := false), false)
      else if Replaces(current, after.value) then
        (j.(ply := after, oldPly := if j.ply.Some? then j.ply else j.oldPly, newPly := None, temp := false), true)
      else (j.(newPly := None, temp := false), false)
  }

  /** The repair of one entry of `data/results`. */
  function RepairedItem(item: Item, run: ExportRun): Item
  {
    if item.OtherItem? then item else JobItem(Repaired(item.dir, run).0)
  }

  /** How many of the entries a pass fixes. */
  function FixedCount(items: seq<Item>, runs: seq<ExportRun>): nat
    requires |runs| == |items|
  {
    if items == [] then 0
    else FixedCount(items[..|items| - 1], runs[..|runs| - 1]) +
         (if items[|items| - 1].JobItem? && Repaired(items[|items| - 1].dir, runs[|runs| - 1]).1 then 1 else 0)
  }

  lemma FixedCountStep(items: seq<Item>, runs: seq<ExportRun>, i: nat)
    requires |runs| == |items| && i < |items|
    ensures FixedCount(items[..i + 1], runs[..i + 1]) ==
            FixedCount(items[..i], runs[..i]) + (if items[i].JobItem? && Repaired(items[i].dir, runs[i]).1 then 1 else 0)
  {
    assert items[..i + 1][..i] == items[..i] && runs[..i + 1][..i] == runs[..i];
  }

  /** A job is fixed exactly when the converter succeeded on a chosen model
      and the new cloud passes the 1.5x rule; then the new cloud is the
      point cloud, the old one (if any) is `point_cloud_old.ply`, and the
      temporary files are gone. Otherwise the point cloud is untouched. */
  lemma ReplacementRule(j: JobDir, run: ExportRun)
    requires j.zip.Some?
    ensures var (r, fixed) := Repaired(j, run);
      var current := if j.ply.Some? then j.ply.value else 0;
      (fixed <==> BestSparseModel(j.zip).Some? && Exported(j.newPly, run) &&
                  Replaces(current, AfterExport(j.newPly, run).value)) &&
      (fixed ==> r.ply == AfterExport(j.newPly, run) && r.newPly.None? &&
                 r.oldPly == (if j.ply.Some? then j.ply else j.oldPly)) &&
      (!fixed ==> r.ply == j.ply && r.oldPly == j.oldPly) &&
      r.zip == j.zip && (r.temp <==> BestSparseModel(j.zip).None?)
  {
  }

  /** Directories without `sparse_model.zip`, and entries that are not
      directories, are left alone. */
  lemma SkippedUnchanged(item: Item, run: ExportRun)
    requires item.OtherItem? || item.dir.zip.None?
    ensures RepairedItem(item, run) == item
    ensures item.JobItem? ==> !Repaired(item.dir, run).1
  {
  }

  /** Running the script again on a directory it just fixed with a non-empty
      cloud, with the converter behaving the same, changes nothing: the new
      cloud is no more than 1.5 times itself. */
  lemma RepairIdempotent(j: JobDir, run: ExportRun)
    requires Repaired(j, run).1 && Repaired(j, run).0.ply.value > 0
    ensures Repaired(Repaired(j, run).0, run) == (Repaired(j, run).0, false)
  {
    if run.leaves.Some? {
      assert AfterExport(Repaired(j, run).0.newPly, run) == Repaired(j, run).0.ply;
    }
  }

  // ---------------------------------------------------------------------
  // main

  /** The `data/results` directory. */
  class ResultsDir {
    var present: bool
    var items: seq<Item>

    constructor (present: bool, items: seq<Item>)
      ensures this.present == present && this.items == items
    {
      this.present, this.items := present, items;
    }

    /** `main`: each entry repaired in turn, counting the fixed ones; with no
        results directory nothing happens. The converter's run for the i-th
        entry is `runs[i]`. */
    method RepairAll(runs: seq<ExportRun>) returns (fixedCount: nat)
      requires |runs| == |items|
      modifies this
      ensures present == old(present) && |items| == |old(items)|
      ensures !present ==> items == old(items) && fixedCount == 0
      ensures present ==> fixedCount == FixedCount(old(items), runs) &&
                          forall i | 0 <= i < |items| :: items[i] == RepairedItem(old(items)[i], runs[i])
    {
      fixedCount := 0;
      if !present {
        return;
      }
      ghost var start := items;
      for i := 0 to |items|
        invariant |items| == |start| && present
        invariant fixedCount == FixedCount(start[..i], runs[..i])
        invariant forall k | 0 <= k < i :: items[k] == RepairedItem(start[k], runs[k])
        invariant items[i..] == start[i..]
      {
        FixedCountStep(start, runs, i);
        assert items[i] == start[i];
        var fixed := RepairEntry(i, runs[i]);
        if fixed {
          fixedCount := fixedCount + 1;
        }
      }
      assert start[..|start|] == start && runs[..|runs|] == runs;
    }

    /** One pass of the loop: a job directory is repaired, anything else
        skipped. */
    method RepairEntry(i: nat, run: ExportRun) returns (fixed: bool)
      requires i < |items|
      modifies this
      ensures items == old(items)[i := RepairedItem(old(items)[i], run)]
      ensures fixed == (old(items)[i].JobItem? && Repaired(old(items)[i].dir, run).1)
      ensures present == old(present)
    {
      if items[i].OtherItem? {
        return false;
      }
      var best := FindBestSparseModel(items[i].dir.zip);
      fixed := RepairJob(i, best, run);
    }

    /** The body of the loop for a job directory, once the model is chosen. */
    method RepairJob(i: nat, best: Option<Entry>, run: ExportRun) returns (fixed: bool)
      requires i < |items| && items[i].JobItem? && best == BestSparseModel(items[i].dir.zip)
      modifies this
      ensures items == old(items)[i := JobItem(Repaired(old(items)[i].dir, run).0)]
      ensures fixed == Repaired(old(items)[i].dir, run).1
      ensures present == old(present)
    {
      var j := items[i].dir;
      if j.zip.None? {
        return false;
      }
      var current := if j.ply.Some? then j.ply.value else 0;
      j := j.(temp := true);
      if best.None? {
        items := items[i := JobItem(j)];
        return false;
      }
      var after := AfterExport(j.newPly, run);
      j := j.(newPly := after);
      fixed := false;
      if run.exitOk && after.Some? {
        if current == 0 || 2 * after.value > 3 * current {
          if j.ply.Some? {
            j := j.(oldPly := j.ply);
          }
          j := j.(ply := after, newPly := None);
          fixed := true;
        } else {
          j := j.(newPly := None);
        }
      }
      j := j.(temp := false);
      items := items[i := JobItem(j)];
    }
  }
}
