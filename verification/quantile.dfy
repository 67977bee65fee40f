/** The nearest-rank 95th percentile shared by both implementations: the
    element at zero-based index floor(0.95 * (n - 1)) of the ascending sort,
    with no interpolation (`sorted(xs)[int(0.95 * (len(xs) - 1))]` in
    app/storage.py, `quantile95` in netlify/functions/api.js). */
module Quantile {

  predicate Sorted(s: seq<real>)
  {
    forall i, j :: 0 <= i < j < |s| ==> s[i] <= s[j]
  }

  /** Inserts `x` before the first element not below it; on a sorted
      input the result is sorted (`InsertSorted`). */
  function Insert(x: real, s: seq<real>): (r: seq<real>)
    ensures |r| == |s| + 1
  {
    if s == [] then [x]
    else if x <= s[0] then [x] + s
    else [s[0]] + Insert(x, s[1..])
  }

  lemma SortedCons(a: real, r: seq<real>)
    requires Sorted(r) && (r == [] || a <= r[0])
    ensures Sorted([a] + r)
  {
  }

  lemma {:induction false} InsertSorted(x: real, s: seq<real>)
    requires Sorted(s)
    ensures Sorted(Insert(x, s))
  {
    if s == [] {
    } else if x <= s[0] {
      SortedCons(x, s);
    } else {
      var rest := Insert(x, s[1..]);
      InsertSorted(x, s[1..]);
      assert rest[0] == x || rest[0] == s[1];
      SortedCons(s[0], rest);
    }
  }

  lemma {:induction false} InsertPermutes(x: real, s: seq<real>)
    ensures multiset(Insert(x, s)) == multiset(s) + multiset{x}
  {
    if s != [] && x > s[0] {
      var rest := Insert(x, s[1..]);
      InsertPermutes(x, s[1..]);
      calc {
        multiset(Insert(x, s));
        multiset([s[0]] + rest);
        multiset([s[0]]) + multiset(rest);
        multiset([s[0]]) + multiset(s[1..]) + multiset{x};
        { assert s == [s[0]] + s[1..]; }
        multiset(s) + multiset{x};
      }
    }
  }

  /** Ascending insertion sort (`sorted(xs)`, `[...arr].sort((a, b) => a - b)`);
      the input is not changed. `SortSorted` states that the result is
      ascending and a permutation of the input. */
  function Sort(xs: seq<real>): (r: seq<real>)
    ensures |r| == |xs|
  {
    if xs == [] then [] else Insert(xs[0], Sort(xs[1..]))
  }

  lemma {:induction false} SortSorted(xs: seq<real>)
    ensures Sorted(Sort(xs))
    ensures multiset(Sort(xs)) == multiset(xs)
  {
    if xs != [] {
      SortSorted(xs[1..]);
      InsertSorted(xs[0], Sort(xs[1..]));
      InsertPermutes(xs[0], Sort(xs[1..]));
      assert xs == [xs[0]] + xs[1..];
    }
  }

  /** `int(0.95 * (n - 1))`, i.e. floor(95 * (n - 1) / 100). */
  function P95Index(n: nat): (i: nat)
    requires n > 0
    ensures i < n
    ensures 100 * i <= 95 * (n - 1) < 100 * (i + 1)
  {
    (95 * (n - 1)) / 100
  }

  /** The JavaScript `quantile95`: 0 for an empty series, otherwise the
      nearest-rank element of the sorted copy, which is one of the inputs. */
  function Quantile95(xs: seq<real>): (q: real)
    ensures |xs| == 0 ==> q == 0.0
    ensures |xs| > 0 ==> q in xs
    ensures |xs| == 1 ==> q == xs[0]
  {
    if |xs| == 0 then 0.0
    else
      var sorted := Sort(xs);
      SortSorted(xs);
      assert sorted[P95Index(|xs|)] in multiset(sorted);
      sorted[P95Index(|xs|)]
  }

  // ---------------------------------------------------------------------------
  // An order-statistic characterisation that does not mention sorting.

  /** Number of elements strictly below `v`. */
  function CountBelow(xs: seq<real>, v: real): nat
  {
    if xs == [] then 0 else (if xs[0] < v then 1 else 0) + CountBelow(xs[1..], v)
  }

  /** Number of elements at most `v`. */
  function CountAtMost(xs: seq<real>, v: real): nat
  {
    if xs == [] then 0 else (if xs[0] <= v then 1 else 0) + CountAtMost(xs[1..], v)
  }

  /** `v` sits at zero-based rank `i`: at most `i` elements lie strictly below
      it and more than `i` lie at or below it. */
  predicate HasRank(xs: seq<real>, v: real, i: nat)
  {
    CountBelow(xs, v) <= i < CountAtMost(xs, v)
  }

  lemma {:induction false} InsertCounts(x: real, s: seq<real>, v: real)
    ensures CountBelow(Insert(x, s), v) == (if x < v then 1 else 0) + CountBelow(s, v)
    ensures CountAtMost(Insert(x, s), v) == (if x <= v then 1 else 0) + CountAtMost(s, v)
  {
    if s != [] && x > s[0] {
      var r := Insert(x, s);
      assert r[1..] == Insert(x, s[1..]);
      InsertCounts(x, s[1..], v);
    }
  }

  lemma {:induction false} SortCounts(xs: seq<real>, v: real)
    ensures CountBelow(Sort(xs), v) == CountBelow(xs, v)
    ensures CountAtMost(Sort(xs), v) == CountAtMost(xs, v)
  {
    if xs != [] {
      SortCounts(xs[1..], v);
      InsertCounts(xs[0], Sort(xs[1..]), v);
    }
  }

  lemma {:induction false} CountBelowBound(s: seq<real>, v: real, k: nat)
    requires k <= |s|
    requires forall j :: k <= j < |s| ==> v <= s[j]
    ensures CountBelow(s, v) <= k
  {
    if s != [] {
      CountBelowBound(s[1..], v, if k == 0 then 0 else k - 1);
    }
  }

  lemma {:induction false} CountAtMostBound(s: seq<real>, v: real, k: nat)
    requires k < |s|
    requires forall j :: 0 <= j <= k ==> s[j] <= v
    ensures CountAtMost(s, v) >= k + 1
  {
    if k > 0 {
      CountAtMostBound(s[1..], v, k - 1);
    }
  }

  /** Every element at or below `v` is strictly below any `w > v`. */
  lemma {:induction false} CountsSeparate(xs: seq<real>, v: real, w: real)
    requires v < w
    ensures CountAtMost(xs, v) <= CountBelow(xs, w)
  {
    if xs != [] {
      CountsSeparate(xs[1..], v, w);
    }
  }

  /** In a sorted sequence the element at index `i` has rank `i`. */
  lemma SortedRank(s: seq<real>, i: nat)
    requires Sorted(s) && i < |s|
    ensures HasRank(s, s[i], i)
  {
    CountBelowBound(s, s[i], i);
    CountAtMostBound(s, s[i], i);
  }

  /** The 95th percentile has rank P95Index(n) in its input. */
  lemma Quantile95HasRank(xs: seq<real>)
    requires |xs| > 0
    ensures HasRank(xs, Quantile95(xs), P95Index(|xs|))
  {
    var s := Sort(xs);
    SortSorted(xs);
    var i := P95Index(|xs|);
    SortedRank(s, i);
    SortCounts(xs, s[i]);
  }

  /** At most one value has a given rank, so the rank property above pins the
      95th percentile down independently of how the input is sorted. */
  lemma RankIsUnique(xs: seq<real>, i: nat, v: real, w: real)
    requires HasRank(xs, v, i) && HasRank(xs, w, i)
    ensures v == w
  {
    if v < w {
      CountsSeparate(xs, v, w);
    } else if w < v {
      CountsSeparate(xs, w, v);
    }
  }

  lemma Quantile95IsRankElement(xs: seq<real>, v: real)
    requires |xs| > 0 && HasRank(xs, v, P95Index(|xs|))
    ensures Quantile95(xs) == v
  {
    Quantile95HasRank(xs);
    RankIsUnique(xs, P95Index(|xs|), Quantile95(xs), v);
  }
}
