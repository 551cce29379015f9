/** Sequence utilities shared by the model: enumerations of a set, order-preserving
    subsequences, and the stable sort that Python's `sorted` performs. */
module Seqs {

  /** No element occurs twice. */
  predicate Distinct<T(==)>(s: seq<T>) {
    forall i, j | 0 <= i < j < |s| :: s[i] != s[j]
  }

  /** `s` lists every element of `xs` exactly once, in some order (the order in which a
      database returns the rows of an unordered query). */
  predicate Enumerates<T(==)>(s: seq<T>, xs: set<T>) {
    && Distinct(s)
    && (forall i | 0 <= i < |s| :: s[i] in xs)
    && (forall x | x in xs :: x in s)
  }

  /** `idx` picks, in increasing positions of `ys`, the elements of `xs`. */
  ghost predicate SubseqAt<T>(xs: seq<T>, ys: seq<T>, idx: seq<int>) {
    && |idx| == |xs|
    && (forall k | 0 <= k < |idx| :: 0 <= idx[k] < |ys| && xs[k] == ys[idx[k]])
    && (forall k, l | 0 <= k < l < |idx| :: idx[k] < idx[l])
  }

  /** `xs` is an order-preserving subsequence of `ys`. */
  ghost predicate IsSubsequence<T>(xs: seq<T>, ys: seq<T>) {
    exists idx :: SubseqAt(xs, ys, idx)
  }

  /** Adding one element at the end of `ys` keeps every subsequence of `ys`, and a
      subsequence extended by that same element is a subsequence of the extension. */
  lemma SubsequenceSnoc<T>(xs: seq<T>, ys: seq<T>, y: T, keep: bool)
    requires IsSubsequence(xs, ys)
    ensures IsSubsequence(if keep then xs + [y] else xs, ys + [y])
  {
    var idx :| SubseqAt(xs, ys, idx);
    if keep {
      assert SubseqAt(xs + [y], ys + [y], idx + [|ys|]);
    } else {
      assert SubseqAt(xs, ys + [y], idx);
    }
  }

  /** Keys are non-decreasing along `s`. */
  predicate SortedBy<T>(s: seq<T>, key: T -> real) {
    forall i, j | 0 <= i < j < |s| :: key(s[i]) <= key(s[j])
  }

  /** Inserts `x` into `s` after every element whose key is at most `key(x)`; elements
      with an equal key keep their place before `x`. */
  function Insert<T>(s: seq<T>, x: T, key: T -> real): (r: seq<T>)
    ensures |r| == |s| + 1
  {
    if s == [] || key(s[|s| - 1]) <= key(x) then s + [x]
    else Insert(s[..|s| - 1], x, key) + [s[|s| - 1]]
  }

  /** Stable insertion sort by ascending key. Python's `sorted(..., key=f)` is stable,
      and `sorted(..., key=f, reverse=True)` is the same as sorting by the negated key. */
  function SortBy<T>(s: seq<T>, key: T -> real): (r: seq<T>)
    ensures |r| == |s|
  {
    if s == [] then [] else Insert(SortBy(s[..|s| - 1], key), s[|s| - 1], key)
  }

  /** The elements of `s` whose key is `v`, in their order in `s`. */
  function WithKey<T>(s: seq<T>, key: T -> real, v: real): seq<T> {
    if s == [] then []
    else WithKey(s[..|s| - 1], key, v) + (if key(s[|s| - 1]) == v then [s[|s| - 1]] else [])
  }

  lemma {:induction false} WithKeyAppend<T>(s: seq<T>, t: seq<T>, key: T -> real, v: real)
    ensures WithKey(s + t, key, v) == WithKey(s, key, v) + WithKey(t, key, v)
    decreases |t|
  {
    if t == [] {
      assert s + t == s;
    } else {
      assert (s + t)[..|s + t| - 1] == s + t[..|t| - 1];
      WithKeyAppend(s, t[..|t| - 1], key, v);
    }
  }

  lemma {:induction false} InsertPermutes<T>(s: seq<T>, x: T, key: T -> real)
    ensures multiset(Insert(s, x, key)) == multiset(s) + multiset{x}
    decreases |s|
  {
    if s == [] || key(s[|s| - 1]) <= key(x) {
    } else {
      InsertPermutes(s[..|s| - 1], x, key);
      assert s == s[..|s| - 1] + [s[|s| - 1]];
    }
  }

  lemma {:induction false} InsertSorted<T>(s: seq<T>, x: T, key: T -> real)
    requires SortedBy(s, key)
    ensures SortedBy(Insert(s, x, key), key)
    decreases |s|
  {
    if s == [] || key(s[|s| - 1]) <= key(x) {
    } else {
      var init, last := s[..|s| - 1], s[|s| - 1];
      InsertSorted(init, x, key);
      InsertPermutes(init, x, key);
      var r := Insert(init, x, key);
      forall i | 0 <= i < |r| ensures key(r[i]) <= key(last) {
        assert r[i] in multiset(r);
        assert r[i] in multiset(init) || r[i] == x;
        if r[i] != x {
          var j :| 0 <= j < |init| && init[j] == r[i];
        }
      }
    }
  }

  lemma {:induction false} InsertStable<T>(s: seq<T>, x: T, key: T -> real, v: real)
    ensures WithKey(Insert(s, x, key), key, v) == WithKey(s, key, v) + (if key(x) == v then [x] else [])
    decreases |s|
  {
    if s == [] || key(s[|s| - 1]) <= key(x) {
      assert (s + [x])[..|s|] == s;
    } else {
      var init, last := s[..|s| - 1], s[|s| - 1];
      InsertStable(init, x, key, v);
      var r := Insert(init, x, key);
      assert (r + [last])[..|r|] == r;
    }
  }

  /** The sort returns a permutation of its input. */
  lemma {:induction false} SortByPermutes<T>(s: seq<T>, key: T -> real)
    ensures multiset(SortBy(s, key)) == multiset(s)
    decreases |s|
  {
    if s != [] {
      SortByPermutes(s[..|s| - 1], key);
      InsertPermutes(SortBy(s[..|s| - 1], key), s[|s| - 1], key);
      assert s == s[..|s| - 1] + [s[|s| - 1]];
    }
  }

  /** The sort orders its output by non-decreasing key. */
  lemma {:induction false} SortBySorted<T>(s: seq<T>, key: T -> real)
    ensures SortedBy(SortBy(s, key), key)
    decreases |s|
  {
    if s != [] {
      SortBySorted(s[..|s| - 1], key);
      InsertSorted(SortBy(s[..|s| - 1], key), s[|s| - 1], key);
    }
  }

  /** The sort is stable: the elements sharing one key value keep their input order. */
  lemma {:induction false} SortByStable<T>(s: seq<T>, key: T -> real, v: real)
    ensures WithKey(SortBy(s, key), key, v) == WithKey(s, key, v)
    decreases |s|
  {
    if s != [] {
      SortByStable(s[..|s| - 1], key, v);
      InsertStable(SortBy(s[..|s| - 1], key), s[|s| - 1], key, v);
    }
  }

  /** Membership carries over from the input of the sort to its output and back. */
  lemma SortByMembers<T>(s: seq<T>, key: T -> real)
    ensures forall x :: x in SortBy(s, key) <==> x in s
  {
    SortByPermutes(s, key);
    forall x ensures x in SortBy(s, key) <==> x in s {
      assert x in SortBy(s, key) <==> x in multiset(SortBy(s, key));
      assert x in s <==> x in multiset(s);
    }
  }

  // ---- filtering ----

  /** The elements of `s` satisfying `p`, in their order in `s` (a list comprehension with
      a condition, or a `WHERE` clause over rows in a given order). */
  function Filter<T(!new)>(s: seq<T>, p: T -> bool): (r: seq<T>)
    ensures forall x :: x in r <==> x in s && p(x)
  {
    if s == [] then []
    else
      var init, last := s[..|s| - 1], s[|s| - 1];
      assert s == init + [last];
      Filter(init, p) + (if p(last) then [last] else [])
  }

  /** Filtering keeps the relative order of what it keeps. */
  lemma {:induction false} FilterSubsequence<T(!new)>(s: seq<T>, p: T -> bool)
    ensures IsSubsequence(Filter(s, p), s)
    decreases |s|
  {
    if s == [] {
      assert SubseqAt([], s, []);
    } else {
      var init, last := s[..|s| - 1], s[|s| - 1];
      var r0 := Filter(init, p);
      FilterSubsequence(init, p);
      assert s == init + [last];
      if p(last) {
        assert Filter(s, p) == r0 + [last];
        SubsequenceSnoc(r0, init, last, true);
      } else {
        assert Filter(s, p) == r0;
        SubsequenceSnoc(r0, init, last, false);
      }
    }
  }

  /** Filtering a prefix extended by one element. */
  lemma FilterSnoc<T(!new)>(s: seq<T>, x: T, p: T -> bool)
    ensures Filter(s + [x], p) == Filter(s, p) + (if p(x) then [x] else [])
  {
    assert (s + [x])[..|s|] == s;
  }

  // ---- sets of elements ----

  /** The set of elements of `s`. */
  function ToSet<T>(s: seq<T>): set<T> {
    set x | x in s
  }

  /** Converting to a set loses elements exactly when some element repeats, so comparing
      `len(set(xs))` with `len(xs)` decides distinctness. */
  lemma {:induction false} DistinctIffSameSize<T>(s: seq<T>)
    ensures |ToSet(s)| <= |s|
    ensures Distinct(s) <==> |ToSet(s)| == |s|
    decreases |s|
  {
    if s != [] {
      var init, last := s[..|s| - 1], s[|s| - 1];
      DistinctIffSameSize(init);
      assert s == init + [last];
      assert ToSet(s) == ToSet(init) + {last};
      if last in init {
        assert ToSet(s) == ToSet(init);
        var j :| 0 <= j < |init| && init[j] == last;
        assert s[j] == s[|s| - 1];
      } else {
        assert |ToSet(s)| == |ToSet(init)| + 1;
        if Distinct(init) {
          forall i, j | 0 <= i < j < |s| ensures s[i] != s[j] {
            if j < |s| - 1 {
              assert s[i] == init[i] && s[j] == init[j];
            } else {
              assert s[i] == init[i];
            }
          }
        } else {
          var i, j :| 0 <= i < j < |init| && init[i] == init[j];
          assert s[i] == s[j];
        }
      }
    }
  }

  /** Lists the elements of a finite set in an order the caller does not control, the
      way a database returns the rows of a query without `ORDER BY`. */
  method Enumerate<T(==)>(xs: set<T>) returns (s: seq<T>)
    ensures Enumerates(s, xs)
  {
    s := [];
    var rest := xs;
    while rest != {}
      invariant rest <= xs
      invariant Distinct(s)
      invariant forall i | 0 <= i < |s| :: s[i] in xs && s[i] !in rest
      invariant forall x | x in xs :: x in rest || x in s
      decreases |rest|
    {
      var x :| x in rest;
      s := s + [x];
      rest := rest - {x};
    }
  }

  // ---- the first element with a key ----

  lemma {:induction false} WithKeyNone<T>(s: seq<T>, key: T -> real, v: real)
    requires forall j | 0 <= j < |s| :: key(s[j]) != v
    ensures WithKey(s, key, v) == []
    decreases |s|
  {
    if s != [] {
      WithKeyNone(s[..|s| - 1], key, v);
    }
  }

  /** The first element with key `v` heads the elements with that key. */
  lemma {:induction false} WithKeyFirst<T>(s: seq<T>, key: T -> real, v: real, k: int)
    requires 0 <= k < |s| && key(s[k]) == v
    requires forall j | 0 <= j < k :: key(s[j]) != v
    ensures |WithKey(s, key, v)| > 0 && WithKey(s, key, v)[0] == s[k]
    decreases |s|
  {
    var init := s[..|s| - 1];
    if k == |s| - 1 {
      WithKeyNone(init, key, v);
    } else {
      WithKeyFirst(init, key, v, k);
    }
  }
  // ---- multiplicities ----

  /** Each element of a sequence without repeats occurs once in its multiset. */
  lemma {:induction false} DistinctMultiset<T>(s: seq<T>)
    requires Distinct(s)
    ensures forall x | x in multiset(s) :: multiset(s)[x] == 1
    decreases |s|
  {
    if s != [] {
      var init, last := s[..|s| - 1], s[|s| - 1];
      assert s == init + [last];
      assert Distinct(init);
      DistinctMultiset(init);
    }
  }

  /** Two positions holding the same element give it a multiplicity of at least 2. */
  lemma RepeatMultiset<T>(s: seq<T>, i: int, j: int)
    requires 0 <= i < j < |s| && s[i] == s[j]
    ensures multiset(s)[s[i]] >= 2
  {
    assert s == s[..i] + [s[i]] + s[i + 1..j] + [s[j]] + s[j + 1..];
  }

  /** A permutation of a sequence without repeats has no repeats. */
  lemma DistinctPermutation<T>(s: seq<T>, t: seq<T>)
    requires Distinct(s) && multiset(s) == multiset(t)
    ensures Distinct(t)
  {
    DistinctMultiset(s);
    forall i, j | 0 <= i < j < |t| ensures t[i] != t[j] {
      if t[i] == t[j] {
        RepeatMultiset(t, i, j);
      }
    }
  }

  /** A subset is no larger than its superset. */
  lemma {:induction false} SubsetCardinality<T>(a: set<T>, b: set<T>)
    requires a <= b
    ensures |a| <= |b|
    decreases |a|
  {
    if a != {} {
      var x :| x in a;
      SubsetCardinality(a - {x}, b - {x});
    }
  }

  // ---- keyed upserts ----

  /** Writes the pairs of `kvs` into `m` one after another, so a later write of a key
      replaces an earlier one. */
  function PutAll<K(==), V>(m: map<K, V>, kvs: seq<(K, V)>): (r: map<K, V>)
    ensures m.Keys <= r.Keys
    ensures forall i | 0 <= i < |kvs| :: kvs[i].0 in r
    decreases |kvs|
  {
    if kvs == [] then m
    else PutAll(m, kvs[..|kvs| - 1])[kvs[|kvs| - 1].0 := kvs[|kvs| - 1].1]
  }

  /** The keys of `kvs`, in order. */
  function Firsts<K, V>(kvs: seq<(K, V)>): seq<K> {
    seq(|kvs|, i requires 0 <= i < |kvs| => kvs[i].0)
  }

  /** With no key written twice, every written key holds its pair's value, every other
      key keeps its old value, and the keys are the old ones plus the written ones. */
  lemma {:induction false} PutAllLookup<K, V>(m: map<K, V>, kvs: seq<(K, V)>)
    requires Distinct(Firsts(kvs))
    ensures PutAll(m, kvs).Keys == m.Keys + ToSet(Firsts(kvs))
    ensures forall i | 0 <= i < |kvs| :: PutAll(m, kvs)[kvs[i].0] == kvs[i].1
    ensures forall k | k in m && k !in Firsts(kvs) :: PutAll(m, kvs)[k] == m[k]
    decreases |kvs|
  {
    if kvs != [] {
      var init, last := kvs[..|kvs| - 1], kvs[|kvs| - 1];
      assert Firsts(init) == Firsts(kvs)[..|kvs| - 1];
      PutAllLookup(m, init);
      assert Firsts(kvs) == Firsts(init) + [last.0];
      assert ToSet(Firsts(kvs)) == ToSet(Firsts(init)) + {last.0};
      forall i | 0 <= i < |kvs| ensures PutAll(m, kvs)[kvs[i].0] == kvs[i].1 {
        if i < |kvs| - 1 {
          assert Firsts(kvs)[i] != Firsts(kvs)[|kvs| - 1];
          assert kvs[i] == init[i];
        }
      }
    }
  }
}
