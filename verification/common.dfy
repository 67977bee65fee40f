/** Small shared vocabulary: optional values, caller-visible errors, and
    order-preserving filtering of sequences (list comprehensions with an `if`). */
module Common {

  datatype Option<T> = None | Some(value: T)

  /** The two not-found conditions the HTTP layer distinguishes. */
  datatype Error = PolicyNotFound | RecommendationNotFound

  datatype Result<T> = Ok(value: T) | Err(error: Error)

  /** The body both services answer an ingestion request with. */
  datatype IngestionAck = IngestionAck(status: string, tenantId: string, acceptedRecords: nat, deduped: bool)

  /** Truthiness of an optional query parameter, alike in Python and
      JavaScript: an absent or empty string does not filter. */
  predicate Given(q: Option<string>)
  {
    q.Some? && q.value != ""
  }

  /** The parameter's text, empty when absent. */
  function Text(q: Option<string>): (t: string)
    ensures Given(q) <==> t != ""
  {
    if q.Some? then q.value else ""
  }

  /** No element occurs twice. */
  predicate Distinct<T(==)>(s: seq<T>)
  {
    forall i, j :: 0 <= i < j < |s| ==> s[i] != s[j]
  }

  /** `r` is obtained from `s` by deleting elements (order is kept). */
  predicate IsSubsequence<T(==)>(r: seq<T>, s: seq<T>)
    decreases |s|
  {
    if r == [] then true
    else if s == [] then false
    else if r[0] == s[0] then IsSubsequence(r[1..], s[1..])
    else IsSubsequence(r, s[1..])
  }

  /** `[x for x in s if p(x)]` */
  function Filter<T>(s: seq<T>, p: T -> bool): (r: seq<T>)
    ensures |r| <= |s|
    ensures forall i :: 0 <= i < |r| ==> r[i] in s && p(r[i])
    ensures forall i :: 0 <= i < |s| && p(s[i]) ==> s[i] in r
  {
    if s == [] then []
    else (if p(s[0]) then [s[0]] else []) + Filter(s[1..], p)
  }

  /** `if cond: s = [x for x in s if p(x)]` -- a filter that only applies when
      its query parameter was given. */
  function Refine<T>(s: seq<T>, cond: bool, p: T -> bool): seq<T>
  {
    if cond then Filter(s, p) else s
  }

  lemma {:induction false} FilterIsSubsequence<T>(s: seq<T>, p: T -> bool)
    ensures IsSubsequence(Filter(s, p), s)
  {
    if s != [] {
      FilterIsSubsequence(s[1..], p);
      var r := Filter(s, p);
      if !p(s[0]) && r != [] {
        assert r == Filter(s[1..], p);
        assert r[0] in r;
        assert r[0] != s[0];
      }
    }
  }

  lemma {:induction false} FilterAppend<T>(a: seq<T>, b: seq<T>, p: T -> bool)
    ensures Filter(a + b, p) == Filter(a, p) + Filter(b, p)
  {
    if a == [] {
      assert a + b == b;
    } else {
      assert (a + b)[0] == a[0];
      assert (a + b)[1..] == a[1..] + b;
      FilterAppend(a[1..], b, p);
    }
  }

  /** Filtering by `q` and then (when `cond`) by `p` keeps exactly what one
      pass with the conjunction `qp` keeps. */
  lemma {:induction false} RefineFilter<T>(s: seq<T>, q: T -> bool, cond: bool, p: T -> bool, qp: T -> bool)
    requires forall x :: qp(x) == (q(x) && (cond ==> p(x)))
    ensures Refine(Filter(s, q), cond, p) == Filter(s, qp)
  {
    if s != [] {
      RefineFilter(s[1..], q, cond, p, qp);
      if cond {
        FilterAppend(if q(s[0]) then [s[0]] else [], Filter(s[1..], q), p);
      }
    }
  }

  /** A filter that applies only when `cond` keeps what one pass with
      `cond ==> p` keeps. */
  lemma {:induction false} RefineAll<T>(s: seq<T>, cond: bool, p: T -> bool, cp: T -> bool)
    requires forall x :: cp(x) == (cond ==> p(x))
    ensures Refine(s, cond, p) == Filter(s, cp)
  {
    if s != [] {
      RefineAll(s[1..], cond, p, cp);
      assert s == [s[0]] + s[1..];
    }
  }

  /** A filter every element passes keeps everything. */
  lemma {:induction false} FilterKeepsAll<T>(s: seq<T>, p: T -> bool)
    requires forall i :: 0 <= i < |s| ==> p(s[i])
    ensures Filter(s, p) == s
  {
    if s != [] {
      FilterKeepsAll(s[1..], p);
      assert s == [s[0]] + s[1..];
    }
  }

  lemma PrefixSnoc<T>(a: seq<T>, s: seq<T>, i: nat)
    requires i < |s|
    ensures a + s[..i + 1] == (a + s[..i]) + [s[i]]
  {
    assert s[..i + 1] == s[..i] + [s[i]];
  }

  lemma AppendAssoc<T>(a: seq<T>, b: seq<T>, x: T)
    ensures (a + b) + [x] == a + (b + [x])
  {
  }

  /** `f` applied to each of the first `n` keys in order, the keys numbered
      from `first`: what a loop that draws one identifier per key builds. */
  function Numbered<K, T>(f: (nat, K) -> T, keys: seq<K>, first: nat, n: nat): (r: seq<T>)
    requires n <= |keys|
    ensures |r| == n
  {
    if n == 0 then [] else Numbered(f, keys, first, n - 1) + [f(first + (n - 1), keys[n - 1])]
  }

  lemma NumberedSnoc<K, T>(f: (nat, K) -> T, keys: seq<K>, first: nat, n: nat)
    requires n < |keys|
    ensures Numbered(f, keys, first, n + 1) == Numbered(f, keys, first, n) + [f(first + n, keys[n])]
  {
  }

  lemma {:induction false} NumberedAt<K, T>(f: (nat, K) -> T, keys: seq<K>, first: nat, n: nat, i: nat)
    requires n <= |keys| && i < n
    ensures Numbered(f, keys, first, n)[i] == f(first + i, keys[i])
  {
    if i < n - 1 {
      NumberedAt(f, keys, first, n - 1, i);
    }
  }

  /** Two numberings agree when their builders agree on every numbered key. */
  lemma {:induction false} NumberedPointwise<K, T>(f: (nat, K) -> T, g: (nat, K) -> T, keys: seq<K>, first: nat, n: nat)
    requires n <= |keys|
    requires forall i :: 0 <= i < n ==> f(first + i, keys[i]) == g(first + i, keys[i])
    ensures Numbered(f, keys, first, n) == Numbered(g, keys, first, n)
  {
    if n > 0 {
      NumberedPointwise(f, g, keys, first, n - 1);
    }
  }
}
