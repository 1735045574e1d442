/** The sparse-model directory that COLMAP's mapper writes (`sparse/0`,
    `sparse/1`, ...), seen as a listing of entries, and Python's
    `max(items, key=...)`, which keeps the FIRST item with the largest key. */
module SparseModels {
  import opened Wrappers

  /** One entry of a directory listing: its name, whether it is a directory,
      and (for a directory) the files it holds with their sizes in bytes. */
  datatype Entry = Entry(name: string, isDir: bool, files: map<string, nat>)

  /** `(d / f).exists()` for a file f directly inside entry d. */
  predicate HasFile(e: Entry, f: string)
  {
    e.isDir && f in e.files
  }

  /** `(d / "points3D.bin").stat().st_size`, or 0 when the file is missing. */
  function PointsSize(e: Entry): nat
  {
    if HasFile(e, "points3D.bin") then e.files["points3D.bin"] else 0
  }

  /** A reconstruction both exporters accept: a directory with cameras.bin and points3D.bin. */
  predicate IsCompleteModel(e: Entry)
  {
    HasFile(e, "cameras.bin") && HasFile(e, "points3D.bin")
  }

  /** The complete models of a listing, in listing order. */
  function CompleteModels(entries: seq<Entry>): (r: seq<Entry>)
    ensures forall e :: e in r <==> e in entries && IsCompleteModel(e)
    ensures |r| <= |entries|
  {
    if entries == [] then []
    else
      var last := entries[|entries| - 1];
      CompleteModels(entries[..|entries| - 1]) + (if IsCompleteModel(last) then [last] else [])
  }

  /** The position Python's `max(..., key=k)` returns: a largest key, and the first one. */
  function FirstMaxIndex(keys: seq<nat>): (k: nat)
    requires |keys| > 0
    ensures k < |keys|
    ensures forall j :: 0 <= j < |keys| ==> keys[j] <= keys[k]
    ensures forall j :: 0 <= j < k ==> keys[j] < keys[k]
  {
    if |keys| == 1 then 0
    else
      var k := FirstMaxIndex(keys[..|keys| - 1]);
      if keys[|keys| - 1] > keys[k] then |keys| - 1 else k
  }

  function Sizes(models: seq<Entry>): (r: seq<nat>)
    ensures |r| == |models|
    ensures forall i :: 0 <= i < |models| ==> r[i] == PointsSize(models[i])
  {
    seq(|models|, i requires 0 <= i < |models| => PointsSize(models[i]))
  }

  /** `max(models, key=size)`: the model with the largest points3D.bin, the
      first such one in listing order; None for an empty list. */
  function LargestModel(models: seq<Entry>): (r: Option<Entry>)
    ensures r.None? <==> models == []
    ensures r.Some? ==> forall m :: m in models ==> PointsSize(m) <= PointsSize(r.value)
    ensures r.Some? ==> exists k :: 0 <= k < |models| && models[k] == r.value &&
                          forall i :: 0 <= i < k ==> PointsSize(models[i]) < PointsSize(r.value)
  {
    if models == [] then None
    else
      var k := FirstMaxIndex(Sizes(models));
      assert models[k] in models;
      Some(models[k])
  }
}
