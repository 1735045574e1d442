/** Frame sampling shared by the frame-extraction loops: of the frames read
    from a video, frame k is kept exactly when k % interval == 0, and the
    i-th kept frame is written as `frame_{i:06d}.jpg`. */
module Sampling {
  import opened Text

  /** The indices of the frames kept out of the first n frames read. */
  function Kept(n: nat, interval: nat): seq<nat>
    requires interval > 0
  {
    if n == 0 then [] else Kept(n - 1, interval) + (if (n - 1) % interval == 0 then [n - 1] else [])
  }

  function Abs(x: int): nat
  {
    if x < 0 then -x else x
  }

  /** What Python reports for `k % 0`. */
  const ModuloByZero := "integer modulo by zero"

  /** `frame_{i:06d}.jpg`. */
  function FrameName(i: nat): string
  {
    "frame_" + Padded(i, 6) + ".jpg"
  }

  /** The names written by a loop that kept `count` frames. */
  function FrameNames(count: nat): seq<string>
  {
    seq(count, i requires 0 <= i < count => FrameName(i))
  }

  /** The names of the first n frame files. */
  function FrameSet(n: nat): set<string>
  {
    set i | 0 <= i < n :: FrameName(i)
  }

  lemma MulAtLeast(d: int, i: int)
    requires i > 0
    ensures d >= 1 ==> d * i >= i
    ensures d <= -1 ==> d * i <= -i
  {
    if d >= 1 {
      assert d * i == (d - 1) * i + i;
    } else if d <= -1 {
      assert d * i == (d + 1) * i - i;
    }
  }

  lemma MulBounds(d: int, i: int)
    requires i > 0 && -i < d * i < i
    ensures d == 0
  {
    MulAtLeast(d, i);
  }

  lemma DivUnique(x: int, i: int, q: int, r: int)
    requires i > 0 && 0 <= r < i && x == q * i + r
    ensures x / i == q && x % i == r
  {
    var q', r' := x / i, x % i;
    assert x == q' * i + r';
    assert (q - q') * i == r' - r;
    MulBounds(q - q', i);
  }

  /** One more frame read adds one kept frame exactly when its index is a multiple of the interval. */
  lemma CeilStep(m: nat, i: nat)
    requires i > 0
    ensures (m + i) / i == (m + i - 1) / i + (if m % i == 0 then 1 else 0)
  {
    var q, r := m / i, m % i;
    DivUnique(m + i, i, q + 1, r);
    if r == 0 {
      DivUnique(m + i - 1, i, q, i - 1);
    } else {
      DivUnique(m + i - 1, i, q + 1, r - 1);
    }
  }

  /** Reading n frames keeps ceil(n / interval) of them. */
  lemma {:induction false} KeptCount(n: nat, interval: nat)
    requires interval > 0
    ensures |Kept(n, interval)| == (n + interval - 1) / interval
  {
    if n == 0 {
      DivUnique(interval - 1, interval, 0, interval - 1);
    } else {
      KeptCount(n - 1, interval);
      CeilStep(n - 1, interval);
    }
  }

  /** Reading more frames never keeps fewer. */
  lemma {:induction false} KeptGrows(a: nat, b: nat, interval: nat)
    requires interval > 0 && a <= b
    ensures |Kept(a, interval)| <= |Kept(b, interval)|
  {
    if a < b {
      KeptGrows(a, b - 1, interval);
    }
  }

  /** The kept indices are exactly the multiples of the interval below n, in increasing order. */
  lemma {:induction false} KeptMembers(n: nat, interval: nat)
    requires interval > 0
    ensures forall k :: k in Kept(n, interval) <==> 0 <= k < n && k % interval == 0
    ensures forall a, b :: 0 <= a < b < |Kept(n, interval)| ==> Kept(n, interval)[a] < Kept(n, interval)[b]
  {
    if n > 0 {
      KeptMembers(n - 1, interval);
      var prev := Kept(n - 1, interval);
      var extra: seq<nat> := if (n - 1) % interval == 0 then [n - 1] else [];
      assert Kept(n, interval) == prev + extra;
      forall k ensures k in prev + extra <==> 0 <= k < n && k % interval == 0 {
        assert k in prev + extra <==> k in prev || k in extra;
        assert k in prev <==> 0 <= k < n - 1 && k % interval == 0;
        assert k in extra <==> k == n - 1 && (n - 1) % interval == 0;
      }
      forall a, b | 0 <= a < b < |prev + extra| ensures (prev + extra)[a] < (prev + extra)[b] {
        if b >= |prev| {
          assert prev[a] in prev;
        }
      }
    }
  }

  /** Distinct counters give distinct file names, so no written frame overwrites another. */
  lemma FrameNamesDistinct(a: nat, b: nat)
    requires FrameName(a) == FrameName(b)
    ensures a == b
  {
    var pa, pb := Padded(a, 6), Padded(b, 6);
    assert |pa| == |pb|;
    assert pa == FrameName(a)[6..6 + |pa|];
    assert pb == FrameName(b)[6..6 + |pb|];
    PaddedInjective(a, b, 6);
  }

  /** The image2 muxer numbers `frame_%06d.jpg` from 1: the files of n frames. */
  function FfmpegFrames(n: nat): (r: set<string>)
    ensures forall i | 1 <= i <= n :: FrameName(i) in r
    ensures forall x | x in r :: exists i | 1 <= i <= n :: x == FrameName(i)
  {
    set i | 1 <= i <= n :: FrameName(i)
  }

  /** n frames are n different files. */
  lemma {:induction false} FfmpegFramesCount(n: nat)
    ensures |FfmpegFrames(n)| == n
  {
    if n > 0 {
      FfmpegFramesCount(n - 1);
      assert FfmpegFrames(n) == FfmpegFrames(n - 1) + {FrameName(n)};
      if FrameName(n) in FfmpegFrames(n - 1) {
        var i :| 1 <= i <= n - 1 && FrameName(n) == FrameName(i);
        FrameNamesDistinct(n, i);
      }
    }
  }
}
