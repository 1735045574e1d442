/** The string operations the Python code relies on, restricted to ASCII:
    case mapping, prefix/suffix tests, `str.split`, zero-padded decimals,
    the first run of digits, and Python's code-point ordering of strings. */
module Text {
  import opened Wrappers

  predicate IsDigit(c: char) { '0' <= c <= '9' }

  predicate AllDigits(s: string) { forall i :: 0 <= i < |s| ==> IsDigit(s[i]) }

  function DigitChar(d: nat): (c: char)
    requires d < 10
    ensures IsDigit(c) && c as int - '0' as int == d
  {
    ('0' as int + d) as char
  }

  function DigitValue(c: char): nat
    requires IsDigit(c)
  {
    c as int - '0' as int
  }

  function LowerChar(c: char): char
  {
    if 'A' <= c <= 'Z' then (c as int + 32) as char else c
  }

  function UpperChar(c: char): char
  {
    if 'a' <= c <= 'z' then (c as int - 32) as char else c
  }

  /** `str.lower()` on ASCII text. */
  function Lower(s: string): (r: string)
    ensures |r| == |s|
  {
    seq(|s|, i requires 0 <= i < |s| => LowerChar(s[i]))
  }

  /** `str.upper()` on ASCII text. */
  function Upper(s: string): (r: string)
    ensures |r| == |s|
  {
    seq(|s|, i requires 0 <= i < |s| => UpperChar(s[i]))
  }

  /** `str(Path(dir) / name)` for a relative name. */
  function Child(dir: string, name: string): string
  {
    dir + "/" + name
  }

  /** `str(Path(dir) / name)`: an absolute name replaces the directory. */
  function PathJoin(dir: string, name: string): (r: string)
    ensures StartsWith(name, "/") ==> r == name
    ensures !StartsWith(name, "/") ==> r == Child(dir, name) && StartsWith(r, dir + "/")
  {
    if StartsWith(name, "/") then name else Child(dir, name)
  }

  function Min(a: nat, b: nat): nat
  {
    if a < b then a else b
  }

  predicate StartsWith(s: string, prefix: string)
  {
    |prefix| <= |s| && s[..|prefix|] == prefix
  }

  predicate EndsWith(s: string, suffix: string)
  {
    |suffix| <= |s| && s[|s| - |suffix|..] == suffix
  }

  /** Whether pathlib's `Path.glob("*<suffix>")` matches a directory entry:
      the name ends with the suffix. Unlike the `glob` module, pathlib also
      matches names that start with a dot. */
  predicate Globbed(name: string, suffix: string)
  {
    EndsWith(name, suffix)
  }

  /** One glob: the entries it matches, in directory order. */
  function GlobMatches(listing: seq<string>, suffix: string): (r: seq<string>)
    ensures forall v | v in r :: v in listing && Globbed(v, suffix)
    ensures forall v | v in listing && Globbed(v, suffix) :: v in r
    ensures |r| <= |listing|
  {
    if listing == [] then []
    else (if Globbed(listing[0], suffix) then [listing[0]] else []) + GlobMatches(listing[1..], suffix)
  }

  /** `Path.glob("*.jpg")` of a directory whose order does not matter:
      exactly the entries whose names end in `.jpg`. */
  function JpgFiles(images: set<string>): (r: set<string>)
    ensures r <= images
    ensures forall f | f in images && EndsWith(f, ".jpg") :: f in r
    ensures forall f | f in r :: EndsWith(f, ".jpg")
  {
    set f | f in images && Globbed(f, ".jpg")
  }

  /** Python's `sub in s`. */
  predicate Contains(s: string, sub: string)
  {
    exists i | 0 <= i <= |s| :: StartsWith(s[i..], sub)
  }

  /** Python's `s.split(sep)` for a one-character separator: always at least one piece. */
  function Split(s: string, sep: char): (r: seq<string>)
    ensures |r| >= 1
  {
    if |s| == 0 then [""]
    else if s[0] == sep then [""] + Split(s[1..], sep)
    else
      var rest := Split(s[1..], sep);
      [[s[0]] + rest[0]] + rest[1..]
  }

  /** A string without the separator splits into itself alone. */
  lemma {:induction false} SplitWithoutSeparator(s: string, sep: char)
    requires forall i | 0 <= i < |s| :: s[i] != sep
    ensures Split(s, sep) == [s]
  {
    if |s| > 0 {
      SplitWithoutSeparator(s[1..], sep);
      assert [s[0]] + s[1..] == s;
    }
  }

  /** Splitting at the first separator: the text before it is the first piece. */
  lemma {:induction false} SplitAtFirst(a: string, b: string, sep: char)
    requires forall i | 0 <= i < |a| :: a[i] != sep
    ensures Split(a + [sep] + b, sep) == [a] + Split(b, sep)
  {
    if |a| > 0 {
      SplitAtFirst(a[1..], b, sep);
      assert (a + [sep] + b)[1..] == a[1..] + [sep] + b;
      assert [a[0]] + a[1..] == a;
    } else {
      assert a + [sep] + b == [sep] + b;
      assert ([sep] + b)[1..] == b;
    }
  }

  /** No piece of a split holds the separator, or is longer than the text. */
  lemma {:induction false} SplitPiecesLackSeparator(s: string, sep: char)
    ensures forall k, i | 0 <= k < |Split(s, sep)| && 0 <= i < |Split(s, sep)[k]| :: Split(s, sep)[k][i] != sep
    ensures forall k | 0 <= k < |Split(s, sep)| :: |Split(s, sep)[k]| <= |s|
  {
    if |s| > 0 {
      SplitPiecesLackSeparator(s[1..], sep);
    }
  }

  /** `s.split(sep)[-1]`: what follows the last separator, or all of `s`. */
  function LastPiece(s: string, sep: char): (r: string)
    ensures forall i | 0 <= i < |r| :: r[i] != sep
    ensures |r| <= |s|
  {
    var pieces := Split(s, sep);
    SplitPiecesLackSeparator(s, sep);
    pieces[|pieces| - 1]
  }

  // ---------------------------------------------------------------------
  // Decimal rendering: `str(n)` and `f"{n:0Wd}"` for a natural number n.

  /** The decimal digits of n, left-padded with zeros to at least w digits
      (at least one digit is always written). */
  function Padded(n: nat, w: nat): (r: string)
    ensures |r| >= 1 && |r| >= w
    ensures AllDigits(r)
    decreases n + w
  {
    if n < 10 && w <= 1 then [DigitChar(n)]
    else Padded(n / 10, if w == 0 then 0 else w - 1) + [DigitChar(n % 10)]
  }

  /** `str(n)`. */
  function Decimal(n: nat): string
  {
    Padded(n, 1)
  }

  /** The value of a string of decimal digits, as `int()` reads it. */
  function ParseNat(s: string): nat
    requires AllDigits(s)
  {
    if |s| == 0 then 0 else ParseNat(s[..|s| - 1]) * 10 + DigitValue(s[|s| - 1])
  }

  /** Reading back a padded decimal gives the number that was written. */
  lemma {:induction false} ParsePadded(n: nat, w: nat)
    ensures ParseNat(Padded(n, w)) == n
    decreases n + w
  {
    var r := Padded(n, w);
    if n < 10 && w <= 1 {
    } else {
      var w' := if w == 0 then 0 else w - 1;
      ParsePadded(n / 10, w');
      assert r[..|r| - 1] == Padded(n / 10, w');
    }
  }

  /** Different numbers never render to the same padded text. */
  lemma PaddedInjective(a: nat, b: nat, w: nat)
    requires Padded(a, w) == Padded(b, w)
    ensures a == b
  {
    ParsePadded(a, w);
    ParsePadded(b, w);
  }

  /** Below 10^w the rendering is exactly w digits long. */
  lemma {:induction false} PaddedWidth(n: nat, w: nat)
    requires w >= 1 && n < Pow10(w)
    ensures |Padded(n, w)| == w
    decreases w
  {
    if n < 10 && w <= 1 {
    } else {
      PaddedWidth(n / 10, w - 1);
    }
  }

  function Pow10(w: nat): (r: nat)
    ensures r >= 1
  {
    if w == 0 then 1 else 10 * Pow10(w - 1)
  }

  // ---------------------------------------------------------------------
  // The first run of digits in a line (`re.search(r'(\d+)', line)`).

  function DigitPrefix(s: string): (r: string)
    ensures AllDigits(r) && |r| <= |s| && r == s[..|r|]
    ensures |r| < |s| ==> !IsDigit(s[|r|])
  {
    if |s| == 0 || !IsDigit(s[0]) then [] else [s[0]] + DigitPrefix(s[1..])
  }

  function FirstNumber(s: string): (r: Option<string>)
    ensures r.Some? ==> |r.value| >= 1 && AllDigits(r.value)
    ensures r.None? <==> forall i :: 0 <= i < |s| ==> !IsDigit(s[i])
  {
    if |s| == 0 then None
    else if IsDigit(s[0]) then Some(DigitPrefix(s))
    else FirstNumber(s[1..])
  }

  // ---------------------------------------------------------------------
  // Python's ordering of strings (code point by code point, a prefix first).

  predicate LexLe(a: string, b: string)
  {
    |a| == 0 || (|b| > 0 && (a[0] < b[0] || (a[0] == b[0] && LexLe(a[1..], b[1..]))))
  }

  lemma {:induction false} LexLeTotal(a: string, b: string)
    ensures LexLe(a, b) || LexLe(b, a)
  {
    if |a| > 0 && |b| > 0 && a[0] == b[0] {
      LexLeTotal(a[1..], b[1..]);
    }
  }

  lemma {:induction false} LexLeTransitive(a: string, b: string, c: string)
    requires LexLe(a, b) && LexLe(b, c)
    ensures LexLe(a, c)
  {
    if |a| > 0 && a[0] == b[0] && b[0] == c[0] {
      LexLeTransitive(a[1..], b[1..], c[1..]);
    }
  }

  lemma {:induction false} LexLeAntisymmetric(a: string, b: string)
    requires LexLe(a, b) && LexLe(b, a)
    ensures a == b
  {
    if |a| > 0 {
      LexLeAntisymmetric(a[1..], b[1..]);
      assert a == [a[0]] + a[1..];
      assert b == [b[0]] + b[1..];
    }
  }

  /** A strictly increasing sequence. */
  predicate Increasing(s: seq<nat>)
  {
    forall i, j | 0 <= i < j < |s| :: s[i] < s[j]
  }
}
