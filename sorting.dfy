/** `sorted(xs, key=...)` for string keys, as an insertion sort, with the two
    facts callers rely on: the output is ordered and is a permutation of the
    input; and, when keys are distinct, the output does not depend on the
    order the input arrived in. */
module Sorting {
  import opened Text

  predicate SortedBy<T>(s: seq<T>, key: T -> string)
  {
    forall i, j :: 0 <= i < j < |s| ==> LexLe(key(s[i]), key(s[j]))
  }

  /** No two different elements share a key (entry names within one directory). */
  predicate UniqueKeys<T>(m: multiset<T>, key: T -> string)
  {
    forall x, y | x in m && y in m && key(x) == key(y) :: x == y
  }

  function InsertBy<T>(x: T, s: seq<T>, key: T -> string): seq<T>
  {
    if s == [] then [x]
    else if LexLe(key(x), key(s[0])) then [x] + s
    else [s[0]] + InsertBy(x, s[1..], key)
  }

  function SortBy<T>(s: seq<T>, key: T -> string): seq<T>
  {
    if s == [] then [] else InsertBy(s[0], SortBy(s[1..], key), key)
  }

  lemma {:induction false} InsertByPermutes<T>(x: T, s: seq<T>, key: T -> string)
    ensures multiset(InsertBy(x, s, key)) == multiset(s) + multiset{x}
  {
    if s != [] && !LexLe(key(x), key(s[0])) {
      InsertByPermutes(x, s[1..], key);
      assert s == [s[0]] + s[1..];
    }
  }

  /** A key bounding `x` and every element of `s` from below bounds the insertion. */
  lemma {:induction false} InsertByLowerBound<T>(x: T, s: seq<T>, key: T -> string, lo: string)
    requires LexLe(lo, key(x))
    requires forall i | 0 <= i < |s| :: LexLe(lo, key(s[i]))
    ensures forall i | 0 <= i < |InsertBy(x, s, key)| :: LexLe(lo, key(InsertBy(x, s, key)[i]))
  {
    if s != [] && !LexLe(key(x), key(s[0])) {
      InsertByLowerBound(x, s[1..], key, lo);
    }
  }

  lemma {:induction false} InsertBySorted<T>(x: T, s: seq<T>, key: T -> string)
    requires SortedBy(s, key)
    ensures SortedBy(InsertBy(x, s, key), key)
  {
    if s == [] {
    } else if LexLe(key(x), key(s[0])) {
      var r := [x] + s;
      forall i, j | 0 <= i < j < |r| ensures LexLe(key(r[i]), key(r[j])) {
        if i == 0 && j > 1 { LexLeTransitive(key(x), key(s[0]), key(s[j - 1])); }
      }
    } else {
      LexLeTotal(key(x), key(s[0]));
      InsertBySorted(x, s[1..], key);
      InsertByLowerBound(x, s[1..], key, key(s[0]));
      var tail := InsertBy(x, s[1..], key);
      assert InsertBy(x, s, key) == [s[0]] + tail;
    }
  }

  lemma InsertByCorrect<T>(x: T, s: seq<T>, key: T -> string)
    requires SortedBy(s, key)
    ensures SortedBy(InsertBy(x, s, key), key)
    ensures multiset(InsertBy(x, s, key)) == multiset(s) + multiset{x}
  {
    InsertBySorted(x, s, key);
    InsertByPermutes(x, s, key);
  }

  lemma {:induction false} SortByCorrect<T>(s: seq<T>, key: T -> string)
    ensures SortedBy(SortBy(s, key), key)
    ensures multiset(SortBy(s, key)) == multiset(s)
  {
    if s != [] {
      SortByCorrect(s[1..], key);
      InsertByCorrect(s[0], SortBy(s[1..], key), key);
      assert s == [s[0]] + s[1..];
    }
  }

  /** The first element of an ordered list has the least key. */
  lemma HeadIsLeast<T>(a: seq<T>, x: T, key: T -> string)
    requires SortedBy(a, key) && x in multiset(a)
    ensures LexLe(key(a[0]), key(x))
  {
    var i :| 0 <= i < |a| && a[i] == x;
    if i == 0 { LexLeTotal(key(x), key(x)); }
  }

  /** Ordered arrangements of the same elements with unique keys start alike. */
  lemma SameHead<T>(a: seq<T>, b: seq<T>, key: T -> string)
    requires SortedBy(a, key) && SortedBy(b, key) && |a| > 0
    requires multiset(a) == multiset(b)
    requires UniqueKeys(multiset(a), key)
    ensures |b| > 0 && a[0] == b[0]
  {
    assert a[0] in multiset(b);
    assert |b| > 0;
    assert b[0] in multiset(a);
    HeadIsLeast(a, b[0], key);
    HeadIsLeast(b, a[0], key);
    LexLeAntisymmetric(key(a[0]), key(b[0]));
  }

  lemma TailMultiset<T>(a: seq<T>, b: seq<T>)
    requires |a| > 0 && |b| > 0 && a[0] == b[0] && multiset(a) == multiset(b)
    ensures multiset(a[1..]) == multiset(b[1..]) && multiset(a[1..]) <= multiset(a)
  {
    assert a == [a[0]] + a[1..];
    assert b == [b[0]] + b[1..];
    assert multiset(a) == multiset{a[0]} + multiset(a[1..]);
    assert multiset(b) == multiset{a[0]} + multiset(b[1..]);
    forall x ensures multiset(a[1..])[x] <= multiset(a)[x] {
      assert multiset(a)[x] == multiset{a[0]}[x] + multiset(a[1..])[x];
    }
  }

  lemma TailSorted<T>(a: seq<T>, key: T -> string)
    requires SortedBy(a, key) && |a| > 0
    ensures SortedBy(a[1..], key)
  {
  }

  lemma UniqueKeysSub<T>(m: multiset<T>, m': multiset<T>, key: T -> string)
    requires UniqueKeys(m, key) && m' <= m
    ensures UniqueKeys(m', key)
  {
  }

  /** Two ordered arrangements of the same elements with unique keys are equal. */
  lemma {:induction false} SortedUnique<T>(a: seq<T>, b: seq<T>, key: T -> string)
    requires SortedBy(a, key) && SortedBy(b, key)
    requires multiset(a) == multiset(b)
    requires UniqueKeys(multiset(a), key)
    ensures a == b
    decreases |a|
  {
    if |a| == 0 {
      assert |multiset(b)| == 0;
    } else {
      SameHead(a, b, key);
      TailMultiset(a, b);
      TailSorted(a, key);
      TailSorted(b, key);
      UniqueKeysSub(multiset(a), multiset(a[1..]), key);
      SortedUnique(a[1..], b[1..], key);
      assert a == [a[0]] + a[1..];
      assert b == [b[0]] + b[1..];
    }
  }

  /** Sorting a rearrangement of the same elements (unique keys) gives the same list. */
  lemma SortByIgnoresInputOrder<T>(s: seq<T>, p: seq<T>, key: T -> string)
    requires multiset(s) == multiset(p)
    requires UniqueKeys(multiset(s), key)
    ensures SortBy(s, key) == SortBy(p, key)
  {
    SortByCorrect(s, key);
    SortByCorrect(p, key);
    SortedUnique(SortBy(s, key), SortBy(p, key), key);
  }

  // ---------------------------------------------------------------------
  // `ORDER BY <timestamp> DESC` over the keys of a table.

  /** Row keys listed with non-increasing timestamps. */
  predicate NewestFirst(ids: seq<string>, at: map<string, nat>)
  {
    (forall i | 0 <= i < |ids| :: ids[i] in at) &&
    forall i, j | 0 <= i < j < |ids| :: at[ids[i]] >= at[ids[j]]
  }

  function InsertNewest(id: string, ids: seq<string>, at: map<string, nat>): seq<string>
    requires id in at && NewestFirst(ids, at)
  {
    if ids == [] || at[id] >= at[ids[0]] then [id] + ids
    else [ids[0]] + InsertNewest(id, ids[1..], at)
  }

  lemma {:induction false} InsertNewestPermutes(id: string, ids: seq<string>, at: map<string, nat>)
    requires id in at && NewestFirst(ids, at)
    ensures multiset(InsertNewest(id, ids, at)) == multiset(ids) + multiset{id}
  {
    if ids != [] && at[id] < at[ids[0]] {
      InsertNewestPermutes(id, ids[1..], at);
      assert ids == [ids[0]] + ids[1..];
    }
  }

  /** A timestamp bounding `id` and every listed key from above bounds the insertion. */
  lemma {:induction false} InsertNewestUpperBound(id: string, ids: seq<string>, at: map<string, nat>, hi: nat)
    requires id in at && NewestFirst(ids, at)
    requires at[id] <= hi && forall i | 0 <= i < |ids| :: at[ids[i]] <= hi
    ensures forall i | 0 <= i < |InsertNewest(id, ids, at)| ::
      InsertNewest(id, ids, at)[i] in at && at[InsertNewest(id, ids, at)[i]] <= hi
  {
    if ids != [] && at[id] < at[ids[0]] {
      InsertNewestUpperBound(id, ids[1..], at, hi);
    }
  }

  lemma {:induction false} InsertNewestOrdered(id: string, ids: seq<string>, at: map<string, nat>)
    requires id in at && NewestFirst(ids, at)
    ensures NewestFirst(InsertNewest(id, ids, at), at)
  {
    if ids != [] && at[id] < at[ids[0]] {
      InsertNewestOrdered(id, ids[1..], at);
      InsertNewestUpperBound(id, ids[1..], at, at[ids[0]]);
      var tail := InsertNewest(id, ids[1..], at);
      assert InsertNewest(id, ids, at) == [ids[0]] + tail;
    }
  }

  lemma InsertNewestCorrect(id: string, ids: seq<string>, at: map<string, nat>)
    requires id in at && NewestFirst(ids, at)
    ensures NewestFirst(InsertNewest(id, ids, at), at)
    ensures multiset(InsertNewest(id, ids, at)) == multiset(ids) + multiset{id}
  {
    InsertNewestOrdered(id, ids, at);
    InsertNewestPermutes(id, ids, at);
  }

  /** Lists every key of `want`, once each, newest first; keys with equal
      timestamps may come in any order, as in SQL. */
  method SortNewestFirst(want: set<string>, at: map<string, nat>) returns (ids: seq<string>)
    requires want <= at.Keys
    ensures NewestFirst(ids, at)
    ensures multiset(ids) == multiset(want)
  {
    ids := [];
    var todo := want;
    while todo != {}
      invariant todo <= want
      invariant NewestFirst(ids, at)
      invariant multiset(ids) == multiset(want - todo)
      decreases |todo|
    {
      var id :| id in todo;
      assert want - (todo - {id}) == (want - todo) + {id};
      assert id !in want - todo;
      InsertNewestCorrect(id, ids, at);
      ids := InsertNewest(id, ids, at);
      todo := todo - {id};
    }
    assert want - todo == want;
  }
}
