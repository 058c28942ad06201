/** Sequence operations behind the Python list idioms the services use: filtering
    loops and comprehensions, `list.sort(key=..., reverse=True)`, `sum`, `max`, and
    fixed-size slicing into batches. */
module Seqs {

  // ---------------------------------------------------------------- filtering

  /** The elements of `s` that satisfy `keep`, in their original order. */
  function Filter<T>(s: seq<T>, keep: T -> bool): (r: seq<T>)
    ensures |r| <= |s|
    ensures forall i :: 0 <= i < |r| ==> r[i] in s && keep(r[i])
    ensures forall i :: 0 <= i < |s| && keep(s[i]) ==> s[i] in r
  {
    if s == [] then []
    else
      var init := Filter(s[..|s| - 1], keep);
      assert forall i :: 0 <= i < |s| - 1 ==> s[..|s| - 1][i] == s[i];
      init + (if keep(s[|s| - 1]) then [s[|s| - 1]] else [])
  }

  /** Filtering distributes over concatenation: the order of kept elements is the input order. */
  lemma {:induction false} FilterAppend<T>(a: seq<T>, b: seq<T>, keep: T -> bool)
    ensures Filter(a + b, keep) == Filter(a, keep) + Filter(b, keep)
    decreases |b|
  {
    if b == [] {
      assert a + b == a;
    } else {
      var b' := b[..|b| - 1];
      assert (a + b)[..|a + b| - 1] == a + b';
      FilterAppend(a, b', keep);
    }
  }

  /** A filter that rejects everything returns the empty sequence. */
  lemma FilterKeepsNone<T>(s: seq<T>, keep: T -> bool)
    requires forall x :: x in s ==> !keep(x)
    ensures Filter(s, keep) == []
  {
  }

  // ------------------------------------------------------- stable descending sort

  /** Non-increasing by `key`: the order `sort(key=key, reverse=True)` produces. */
  ghost predicate SortedDesc<T>(s: seq<T>, key: T -> real)
  {
    forall i, j :: 0 <= i < j < |s| ==> key(s[i]) >= key(s[j])
  }

  /** Places `x` after every element of `sorted` whose key is at least its own. */
  function InsertDesc<T>(sorted: seq<T>, x: T, key: T -> real): seq<T>
  {
    if sorted == [] then [x]
    else if key(sorted[0]) >= key(x) then [sorted[0]] + InsertDesc(sorted[1..], x, key)
    else [x] + sorted
  }

  /** Python's stable `list.sort(key=key, reverse=True)`, as an insertion sort that
      takes the elements in input order. */
  function SortDesc<T>(s: seq<T>, key: T -> real): seq<T>
  {
    if s == [] then [] else InsertDesc(SortDesc(s[..|s| - 1], key), s[|s| - 1], key)
  }

  /** The elements whose key is exactly `v`. */
  function HasKey<T>(key: T -> real, v: real): T -> bool
  {
    x => key(x) == v
  }

  /** Insertion adds exactly one element. */
  lemma {:induction false} InsertDescPermutes<T>(sorted: seq<T>, x: T, key: T -> real)
    ensures multiset(InsertDesc(sorted, x, key)) == multiset(sorted) + multiset{x}
    decreases |sorted|
  {
    if sorted != [] && key(sorted[0]) >= key(x) {
      InsertDescPermutes(sorted[1..], x, key);
      assert sorted == [sorted[0]] + sorted[1..];
    }
  }

  /** Insertion introduces no key above a common bound. */
  lemma {:induction false} InsertDescBelow<T>(sorted: seq<T>, x: T, key: T -> real, bound: real)
    requires forall i :: 0 <= i < |sorted| ==> key(sorted[i]) <= bound
    requires key(x) <= bound
    ensures forall i :: 0 <= i < |InsertDesc(sorted, x, key)| ==> key(InsertDesc(sorted, x, key)[i]) <= bound
    decreases |sorted|
  {
    if sorted != [] && key(sorted[0]) >= key(x) {
      InsertDescBelow(sorted[1..], x, key, bound);
    }
  }

  lemma {:induction false} InsertDescSorted<T>(sorted: seq<T>, x: T, key: T -> real)
    requires SortedDesc(sorted, key)
    ensures SortedDesc(InsertDesc(sorted, x, key), key)
    decreases |sorted|
  {
    if sorted != [] && key(sorted[0]) >= key(x) {
      var head := sorted[0];
      var rest := InsertDesc(sorted[1..], x, key);
      InsertDescSorted(sorted[1..], x, key);
      InsertDescBelow(sorted[1..], x, key, key(head));
      assert InsertDesc(sorted, x, key) == [head] + rest;
    }
  }

  /** The ranking is ordered by key and is a permutation of its input. */
  lemma {:induction false} SortDescCorrect<T>(s: seq<T>, key: T -> real)
    ensures SortedDesc(SortDesc(s, key), key)
    ensures multiset(SortDesc(s, key)) == multiset(s)
    ensures |SortDesc(s, key)| == |s|
  {
    if s != [] {
      SortDescCorrect(s[..|s| - 1], key);
      InsertDescSorted(SortDesc(s[..|s| - 1], key), s[|s| - 1], key);
      InsertDescPermutes(SortDesc(s[..|s| - 1], key), s[|s| - 1], key);
      assert s == s[..|s| - 1] + [s[|s| - 1]];
    }
    assert |multiset(SortDesc(s, key))| == |multiset(s)|;
  }

  lemma {:induction false} InsertDescStable<T>(sorted: seq<T>, x: T, key: T -> real, v: real)
    requires SortedDesc(sorted, key)
    ensures Filter(InsertDesc(sorted, x, key), HasKey(key, v))
         == Filter(sorted, HasKey(key, v)) + Filter([x], HasKey(key, v))
    decreases |sorted|
  {
    var keep := HasKey(key, v);
    if sorted == [] {
    } else if key(sorted[0]) >= key(x) {
      var head, rest := [sorted[0]], sorted[1..];
      calc {
        Filter(InsertDesc(sorted, x, key), keep);
        Filter(head + InsertDesc(rest, x, key), keep);
        { FilterAppend(head, InsertDesc(rest, x, key), keep); }
        Filter(head, keep) + Filter(InsertDesc(rest, x, key), keep);
        { InsertDescStable(rest, x, key, v); }
        Filter(head, keep) + (Filter(rest, keep) + Filter([x], keep));
        (Filter(head, keep) + Filter(rest, keep)) + Filter([x], keep);
        { FilterAppend(head, rest, keep); assert sorted == head + rest; }
        Filter(sorted, keep) + Filter([x], keep);
      }
    } else {
      FilterAppend([x], sorted, keep);
      if key(x) == v {
        // everything in `sorted` is keyed at most key(sorted[0]) < v
        FilterKeepsNone(sorted, keep);
      } else {
        FilterKeepsNone([x], keep);
      }
    }
  }

  /** Stability: among elements with equal keys the input order survives the sort. */
  lemma {:induction false} SortDescStable<T>(s: seq<T>, key: T -> real, v: real)
    ensures Filter(SortDesc(s, key), HasKey(key, v)) == Filter(s, HasKey(key, v))
  {
    if s != [] {
      var init, last := s[..|s| - 1], s[|s| - 1];
      SortDescCorrect(init, key);
      SortDescStable(init, key, v);
      InsertDescStable(SortDesc(init, key), last, key, v);
      assert [last][..0] == [];
    }
  }

  // ---------------------------------------------------------------- sums and bounds

  /** `sum(xs)`. */
  function Sum(xs: seq<real>): real
  {
    if xs == [] then 0.0 else Sum(xs[..|xs| - 1]) + xs[|xs| - 1]
  }

  /** A sum of `n` values each in [lo, hi] lies in [n * lo, n * hi]. */
  lemma {:induction false} SumBounds(xs: seq<real>, lo: real, hi: real)
    requires forall i :: 0 <= i < |xs| ==> lo <= xs[i] <= hi
    ensures (|xs| as real) * lo <= Sum(xs) <= (|xs| as real) * hi
  {
    if xs != [] {
      SumBounds(xs[..|xs| - 1], lo, hi);
      assert (|xs| as real) * lo == ((|xs| - 1) as real) * lo + lo;
      assert (|xs| as real) * hi == ((|xs| - 1) as real) * hi + hi;
    }
  }

  /** The mean of values in [lo, hi] lies in [lo, hi]. */
  lemma MeanBounds(xs: seq<real>, lo: real, hi: real)
    requires |xs| > 0
    requires forall i :: 0 <= i < |xs| ==> lo <= xs[i] <= hi
    ensures lo <= Sum(xs) / (|xs| as real) <= hi
  {
    SumBounds(xs, lo, hi);
    QuotientBounds(Sum(xs), |xs| as real, lo, hi);
  }

  lemma QuotientBounds(a: real, n: real, lo: real, hi: real)
    requires n > 0.0
    requires n * lo <= a <= n * hi
    ensures lo <= a / n <= hi
  {
    assert a / n - lo == (a - n * lo) / n;
    assert hi - a / n == (n * hi - a) / n;
  }

  /** `max(xs)` of a non-empty sequence: an element at least as large as every other. */
  function Max(xs: seq<real>): (m: real)
    requires |xs| > 0
    ensures m in xs
    ensures forall i :: 0 <= i < |xs| ==> xs[i] <= m
  {
    if |xs| == 1 then xs[0]
    else
      var m' := Max(xs[..|xs| - 1]);
      assert xs[..|xs| - 1] <= xs;
      if xs[|xs| - 1] > m' then xs[|xs| - 1] else m'
  }

  // ---------------------------------------------------------------- batches

  /** `[s[i:i+size] for i in range(0, len(s), size)]`: consecutive slices of at most `size`. */
  function Chunks<T>(s: seq<T>, size: nat): (batches: seq<seq<T>>)
    requires size > 0
    ensures forall k :: 0 <= k < |batches| ==> 0 < |batches[k]| <= size
    ensures forall k :: 0 <= k < |batches| - 1 ==> |batches[k]| == size
    decreases |s|
  {
    if s == [] then []
    else if |s| <= size then [s]
    else [s[..size]] + Chunks(s[size..], size)
  }

  /** Concatenation of a sequence of sequences, in order (`list.extend` in a loop). */
  function Flatten<T>(ss: seq<seq<T>>): seq<T>
  {
    if ss == [] then [] else ss[0] + Flatten(ss[1..])
  }

  /** The batches, concatenated in order, give back the whole sequence. */
  lemma {:induction false} FlattenChunks<T>(s: seq<T>, size: nat)
    requires size > 0
    ensures Flatten(Chunks(s, size)) == s
    decreases |s|
  {
    if s != [] && |s| > size {
      FlattenChunks(s[size..], size);
      assert s == s[..size] + s[size..];
    }
  }
}
