/** Sequence helpers that mirror the array methods the client relies on:
    `Array.prototype.find`, `findIndex`, `indexOf` and `filter`. */
module Seqs {
  import opened Wrappers

  /** `findIndex`: the position of the first element satisfying `p`. */
  function FindIndex<T>(s: seq<T>, p: T -> bool): (r: Option<nat>)
    ensures r.Some? ==> r.value < |s| && p(s[r.value])
    ensures r.Some? ==> forall j :: 0 <= j < r.value ==> !p(s[j])
    ensures r.None? ==> forall j :: 0 <= j < |s| ==> !p(s[j])
  {
    if s == [] then None
    else if p(s[0]) then Some(0)
    else match FindIndex(s[1..], p)
      case None => None
      case Some(k) => Some(k + 1)
  }

  /** `find`: the first element satisfying `p`, if any. */
  function Find<T>(s: seq<T>, p: T -> bool): (r: Option<T>)
    ensures r.Some? <==> exists j :: 0 <= j < |s| && p(s[j])
    ensures r.Some? ==> p(r.value) && r.value in s
  {
    match FindIndex(s, p)
    case None => None
    case Some(k) => Some(s[k])
  }

  /** `Find` returns the element at the first matching position. */
  lemma FindIsFirst<T>(s: seq<T>, p: T -> bool, k: nat)
    requires k < |s| && p(s[k])
    requires forall j :: 0 <= j < k ==> !p(s[j])
    ensures Find(s, p) == Some(s[k])
  {
  }

  /** `indexOf` with JavaScript's convention: -1 when `x` does not occur. */
  function IndexOf<T(==)>(s: seq<T>, x: T): (r: int)
    ensures -1 <= r < |s|
    ensures r == -1 <==> x !in s
    ensures r >= 0 ==> s[r] == x && forall j :: 0 <= j < r ==> s[j] != x
  {
    if s == [] then -1
    else if s[0] == x then 0
    else var k := IndexOf(s[1..], x); if k == -1 then -1 else k + 1
  }

  /** `filter`: the elements satisfying `p`, in their original order. */
  function Filter<T>(s: seq<T>, p: T -> bool): (r: seq<T>)
    ensures |r| <= |s|
    ensures forall j :: 0 <= j < |r| ==> r[j] in s && p(r[j])
    ensures forall j :: 0 <= j < |s| && p(s[j]) ==> s[j] in r
  {
    if s == [] then []
    else (if p(s[0]) then [s[0]] else []) + Filter(s[1..], p)
  }

  /** Filtering distributes over concatenation: together with the one-element
      case this pins down the order of the result. */
  lemma {:induction false} FilterAppend<T>(a: seq<T>, b: seq<T>, p: T -> bool)
    ensures Filter(a + b, p) == Filter(a, p) + Filter(b, p)
  {
    if a == [] {
      assert a + b == b;
    } else {
      assert (a + b)[1..] == a[1..] + b;
      FilterAppend(a[1..], b, p);
    }
  }

  /** Filtering twice by the same predicate changes nothing. */
  lemma {:induction false} FilterIdempotent<T>(s: seq<T>, p: T -> bool)
    ensures Filter(Filter(s, p), p) == Filter(s, p)
  {
    if s != [] {
      FilterIdempotent(s[1..], p);
      var head := if p(s[0]) then [s[0]] else [];
      FilterAppend(head, Filter(s[1..], p), p);
      if p(s[0]) {
        assert Filter(head, p) == head by {
          assert head[1..] == [];
        }
      } else {
        assert Filter(head, p) == [];
      }
    }
  }

  /** When every element passes, filtering is the identity. */
  lemma {:induction false} FilterAll<T>(s: seq<T>, p: T -> bool)
    requires forall j :: 0 <= j < |s| ==> p(s[j])
    ensures Filter(s, p) == s
  {
    if s != [] {
      FilterAll(s[1..], p);
    }
  }

  /** The number of elements satisfying `p`. */
  function Count<T>(s: seq<T>, p: T -> bool): (n: nat)
    ensures n == |Filter(s, p)|
  {
    if s == [] then 0
    else (if p(s[0]) then 1 else 0) + Count(s[1..], p)
  }
  /** The values `f(j), f(j + 1), ..., f(n - 1)` that are present, in order:
      a `filter` followed by a `map` over the indices `j..n`. */
  function Collect<T>(f: nat -> Option<T>, j: nat, n: nat): (r: seq<T>)
    requires j <= n
    ensures |r| <= n - j
    decreases n - j
  {
    if j == n then []
    else (match f(j) case Some(x) => [x] case None => []) + Collect(f, j + 1, n)
  }

  /** The indices whose values `Collect` keeps. */
  function CollectedAt<T>(f: nat -> Option<T>, j: nat, n: nat): seq<nat>
    requires j <= n
    decreases n - j
  {
    if j == n then []
    else (if f(j).Some? then [j] else []) + CollectedAt(f, j + 1, n)
  }

  /** Every collected value comes from one index holding it, and the
      indices are increasing, so the original order is kept. */
  lemma {:induction false} CollectSources<T>(f: nat -> Option<T>, j: nat, n: nat)
    requires j <= n
    ensures var R, S := Collect(f, j, n), CollectedAt(f, j, n);
      && |S| == |R|
      && (forall k :: 0 <= k < |S| ==> j <= S[k] < n && f(S[k]) == Some(R[k]))
      && (forall k1, k2 :: 0 <= k1 < k2 < |S| ==> S[k1] < S[k2])
    decreases n - j
  {
    if j < n {
      CollectSources(f, j + 1, n);
      if f(j).Some? {
        var R, S := Collect(f, j, n), CollectedAt(f, j, n);
        var R', S' := Collect(f, j + 1, n), CollectedAt(f, j + 1, n);
        assert R == [f(j).value] + R';
        assert S == [j] + S';
        assert forall k :: 1 <= k < |S| ==> S[k] == S'[k - 1] && R[k] == R'[k - 1];
      }
    }
  }

  /** An index is collected exactly when its value is present. */
  lemma {:induction false} CollectedExactly<T>(f: nat -> Option<T>, j: nat, n: nat)
    requires j <= n
    ensures forall m :: j <= m < n ==> (f(m).Some? <==> m in CollectedAt(f, j, n))
    ensures forall k :: 0 <= k < |CollectedAt(f, j, n)| ==> j <= CollectedAt(f, j, n)[k]
    decreases n - j
  {
    if j < n {
      CollectedExactly(f, j + 1, n);
    }
  }

  /** Nothing is collected when no index holds a value. */
  lemma {:induction false} CollectNone<T>(f: nat -> Option<T>, j: nat, n: nat)
    requires j <= n
    requires forall m :: j <= m < n ==> f(m).None?
    ensures Collect(f, j, n) == []
    decreases n - j
  {
    if j < n {
      CollectNone(f, j + 1, n);
    }
  }

  /** `Collect` depends only on the values at the indices it visits. */
  lemma {:induction false} CollectExt<T>(f: nat -> Option<T>, g: nat -> Option<T>, j: nat, n: nat)
    requires j <= n
    requires forall m :: j <= m < n ==> f(m) == g(m)
    ensures Collect(f, j, n) == Collect(g, j, n)
    decreases n - j
  {
    if j < n {
      CollectExt(f, g, j + 1, n);
    }
  }
}
