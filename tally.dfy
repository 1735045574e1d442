/** A counting dictionary as Python builds one with
    `d[k] = d.get(k, 0) + 1`: the keys in first-insertion order, each with
    its count. */
module Tally {

  type Counts<K> = seq<(K, nat)>

  /** The keys of the dictionary, in insertion order. */
  function Keys<K>(d: Counts<K>): (r: seq<K>)
    ensures |r| == |d| && forall i | 0 <= i < |d| :: r[i] == d[i].0
  {
    if d == [] then [] else [d[0].0] + Keys(d[1..])
  }

  /** The sum of the counts. */
  function Sum<K>(d: Counts<K>): nat
  {
    if d == [] then 0 else d[0].1 + Sum(d[1..])
  }

  /** No key appears twice. */
  predicate Distinct<K(==)>(ks: seq<K>)
  {
    forall i, j | 0 <= i < j < |ks| :: ks[i] != ks[j]
  }

  /** How often `k` occurs in `ks`. */
  function Count<K(==)>(ks: seq<K>, k: K): nat
  {
    if ks == [] then 0 else (if ks[0] == k then 1 else 0) + Count(ks[1..], k)
  }

  /** `d[k] = d.get(k, 0) + 1`: an existing key's count grows by one in
      place; a new key goes at the end with count 1. */
  function Bump<K(==)>(d: Counts<K>, k: K): (r: Counts<K>)
    ensures |r| == |d| || |r| == |d| + 1
  {
    if d == [] then [(k, 1)]
    else if d[0].0 == k then [(k, d[0].1 + 1)] + d[1..]
    else [d[0]] + Bump(d[1..], k)
  }

  /** The dictionary counting `ks`, one `Bump` per element in order. */
  function Tallied<K(==)>(ks: seq<K>): Counts<K>
  {
    if ks == [] then [] else Bump(Tallied(ks[..|ks| - 1]), ks[|ks| - 1])
  }

  /** The value of key `k`, 0 when absent (`d.get(k, 0)`). */
  function Get<K(==)>(d: Counts<K>, k: K): nat
  {
    if d == [] then 0 else if d[0].0 == k then d[0].1 else Get(d[1..], k)
  }

  /** One bump adds one to the sum, adds one to the bumped key's value,
      leaves every other key's value alone, and keeps the keys distinct,
      adding `k` as the only possible new key. */
  lemma {:induction false} BumpEffect<K>(d: Counts<K>, k: K)
    requires Distinct(Keys(d))
    ensures Sum(Bump(d, k)) == Sum(d) + 1
    ensures Get(Bump(d, k), k) == Get(d, k) + 1
    ensures forall x | x != k :: Get(Bump(d, k), x) == Get(d, x)
    ensures Distinct(Keys(Bump(d, k)))
    ensures forall x :: x in Keys(Bump(d, k)) <==> x in Keys(d) || x == k
  {
    if d != [] && d[0].0 != k {
      assert Distinct(Keys(d[1..])) by {
        assert forall i | 0 <= i < |d[1..]| :: Keys(d[1..])[i] == Keys(d)[i + 1];
      }
      BumpEffect(d[1..], k);
      assert d[0].0 !in Keys(d[1..]);
      var r := Bump(d, k);
      assert r == [d[0]] + Bump(d[1..], k);
      assert Keys(r) == [d[0].0] + Keys(Bump(d[1..], k));
    } else if d != [] {
      var r := Bump(d, k);
      assert Keys(r) == Keys(d);
      assert d[0].0 !in Keys(d[1..]);
      assert forall x | x != k :: Get(r, x) == Get(d[1..], x);
    }
  }

  /** Counting `ks` gives each distinct element of `ks` exactly once, with
      its number of occurrences, and the counts sum to `|ks|`. */
  lemma {:induction false} TalliedCounts<K>(ks: seq<K>)
    ensures Sum(Tallied(ks)) == |ks|
    ensures Distinct(Keys(Tallied(ks)))
    ensures forall x :: x in Keys(Tallied(ks)) <==> x in ks
    ensures forall x :: Get(Tallied(ks), x) == Count(ks, x)
  {
    if ks != [] {
      var init, last := ks[..|ks| - 1], ks[|ks| - 1];
      TalliedCounts(init);
      BumpEffect(Tallied(init), last);
      assert ks == init + [last];
      forall x
        ensures Count(ks, x) == Count(init, x) + (if last == x then 1 else 0)
      {
        CountAppend(init, [last], x);
      }
    }
  }

  /** Counting one more element is one more bump. */
  lemma TalliedSnoc<K>(ks: seq<K>, k: K)
    ensures Tallied(ks + [k]) == Bump(Tallied(ks), k)
  {
    assert (ks + [k])[..|ks|] == ks;
  }

  /** Counting over a concatenation adds up. */
  lemma {:induction false} CountAppend<K>(a: seq<K>, b: seq<K>, x: K)
    ensures Count(a + b, x) == Count(a, x) + Count(b, x)
  {
    if a != [] {
      assert (a + b)[1..] == a[1..] + b;
      CountAppend(a[1..], b, x);
    } else {
      assert a + b == b;
    }
  }
}
