/** The two ways the backend reads a file name's extension: `pathlib`'s
    `Path(name).suffix`, which looks only at the last path component and
    ignores a leading or trailing dot, and `name.split('.')[-1]`, which
    takes whatever follows the last dot, or the whole name when there is
    none. POSIX paths only. */
module Paths {
  import opened Wrappers
  import opened Text

  /** The position of the last `c` in `s`. */
  function LastIndex(s: string, c: char): (r: Option<nat>)
    ensures r.Some? ==> r.value < |s| && s[r.value] == c && forall j | r.value < j < |s| :: s[j] != c
    ensures r.None? ==> forall j | 0 <= j < |s| :: s[j] != c
  {
    if s == [] then None
    else if s[|s| - 1] == c then Some(|s| - 1)
    else LastIndex(s[..|s| - 1], c)
  }

  /** The components `pathlib` keeps: empty and `.` components vanish. */
  function Components(parts: seq<string>): (r: seq<string>)
    ensures forall x | x in r :: x in parts && x != "" && x != "."
  {
    if parts == [] then []
    else (if parts[0] == "" || parts[0] == "." then [] else [parts[0]]) + Components(parts[1..])
  }

  /** `Path(p).name`: the last kept component, or "" when there is none. */
  function Name(p: string): string
  {
    var kept := Components(Split(p, '/'));
    if kept == [] then "" else kept[|kept| - 1]
  }

  /** `Path.suffix` of a name: from its last dot on, unless that dot is the
      first or the last character (or there is none). */
  function Suffix(name: string): (r: string)
    ensures r == "" || (2 <= |r| < |name| && r[0] == '.' && r == name[|name| - |r|..])
    ensures forall i | 1 <= i < |r| :: r[i] != '.'
  {
    match LastIndex(name, '.')
    case None => ""
    case Some(i) => if 0 < i < |name| - 1 then name[i..] else ""
  }

  /** `s.lstrip(c)`. */
  function LStrip(s: string, c: char): (r: string)
    ensures r == [] || r[0] != c
    ensures |r| <= |s| && r == s[|s| - |r|..]
  {
    if s != [] && s[0] == c then LStrip(s[1..], c) else s
  }

  /** `Path(filename).suffix.lower().lstrip('.')`. */
  function PathExtension(filename: string): (r: string)
    ensures forall i | 0 <= i < |r| :: r[i] != '.' && !('A' <= r[i] <= 'Z')
  {
    LStrip(Lower(Suffix(Name(filename))), '.')
  }

  /** `filename.split('.')[-1].lower()`. */
  function SplitExtension(filename: string): (r: string)
    ensures forall i | 0 <= i < |r| :: r[i] != '.' && !('A' <= r[i] <= 'Z')
    ensures |r| <= |filename|
  {
    Lower(LastPiece(filename, '.'))
  }

  /** A name of one component is its own `Path.name`. */
  lemma NameOfPlain(s: string)
    requires s != "" && s != "." && forall i | 0 <= i < |s| :: s[i] != '/'
    ensures Name(s) == s
  {
    SplitWithoutSeparator(s, '/');
    assert [s][1..] == [];
    assert Components([s]) == [s];
  }

  /** `stem.ext` has the suffix `.ext` when the stem is not empty and the
      extension holds no dot. */
  lemma SuffixOf(stem: string, ext: string)
    requires stem != "" && ext != "" && forall i | 0 <= i < |ext| :: ext[i] != '.'
    ensures Suffix(stem + "." + ext) == "." + ext
  {
    var name := stem + "." + ext;
    LastDotOf(stem, ext);
    assert name[|stem|..] == "." + ext;
  }

  lemma {:induction false} LastDotOf(stem: string, ext: string)
    requires forall i | 0 <= i < |ext| :: ext[i] != '.'
    ensures LastIndex(stem + "." + ext, '.') == Some(|stem|)
    decreases |ext|
  {
    var name := stem + "." + ext;
    if ext != [] {
      var shorter := ext[..|ext| - 1];
      assert name[..|name| - 1] == stem + "." + shorter;
      LastDotOf(stem, shorter);
    }
  }

  /** `validate_file_format`'s reading of an ordinary `stem.ext` name is the
      extension lower-cased, whatever its case. */
  lemma PathExtensionOf(stem: string, ext: string)
    requires stem != "" && ext != ""
    requires forall i | 0 <= i < |stem| :: stem[i] != '/'
    requires forall i | 0 <= i < |ext| :: ext[i] != '.' && ext[i] != '/'
    ensures PathExtension(stem + "." + ext) == Lower(ext)
  {
    var name := stem + "." + ext;
    assert forall i | 0 <= i < |name| :: name[i] != '/' by {
      forall i | 0 <= i < |name|
        ensures name[i] != '/'
      {
        if i < |stem| { assert name[i] == stem[i]; }
        else if i > |stem| { assert name[i] == ext[i - |stem| - 1]; }
      }
    }
    assert name != ".";
    NameOfPlain(name);
    SuffixOf(stem, ext);
    assert Lower("." + ext) == "." + Lower(ext);
    assert ("." + Lower(ext))[1..] == Lower(ext);
    LowerKeepsDots(ext);
  }

  /** Lower-casing neither adds nor removes dots. */
  lemma LowerKeepsDots(s: string)
    requires forall i | 0 <= i < |s| :: s[i] != '.'
    ensures forall i | 0 <= i < |Lower(s)| :: Lower(s)[i] != '.'
    ensures LStrip(Lower(s), '.') == Lower(s)
  {
  }

  /** A name without a dot, a dotfile whose only dot leads, and a name
      ending in a dot all have the empty suffix. */
  lemma NoSuffix(name: string)
    requires (forall i | 0 <= i < |name| :: name[i] != '.') ||
             (name != [] && name[0] == '.' && forall i | 0 < i < |name| :: name[i] != '.') ||
             (name != [] && name[|name| - 1] == '.')
    ensures Suffix(name) == ""
  {
  }

  /** The splitting rule reads the whole name when there is no dot. */
  lemma SplitExtensionWithoutDot(filename: string)
    requires forall i | 0 <= i < |filename| :: filename[i] != '.'
    ensures SplitExtension(filename) == Lower(filename)
  {
    SplitWithoutSeparator(filename, '.');
  }

  /** The two rules disagree: a bare `mp4` is the extension `mp4` to the
      splitting rule and no extension to `pathlib`; a dotfile `.mp4` is
      `mp4` to the splitting rule too. */
  lemma RulesDiffer()
    ensures SplitExtension("mp4") == "mp4" && PathExtension("mp4") == ""
    ensures SplitExtension(".mp4") == "mp4" && PathExtension(".mp4") == ""
  {
    BareName();
    Dotfile();
  }

  lemma BareName()
    ensures SplitExtension("mp4") == "mp4" && PathExtension("mp4") == ""
  {
    assert Lower("mp4") == "mp4";
    SplitExtensionWithoutDot("mp4");
    NameOfPlain("mp4");
    NoSuffix("mp4");
    assert Lower("") == "";
  }

  lemma Dotfile()
    ensures SplitExtension(".mp4") == "mp4" && PathExtension(".mp4") == ""
  {
    assert Lower("mp4") == "mp4";
    assert Split(".mp4", '.') == [""] + Split("mp4", '.');
    SplitWithoutSeparator("mp4", '.');
    NameOfPlain(".mp4");
    NoSuffix(".mp4");
    assert Lower("") == "";
  }
}
