/** The array operations the app uses on its record lists (`filter`,
    `reduce` with `+`, the mean guarded against an empty list, `slice(-n)`
    and `reverse()`), written once over generic sequences. */
module Folds {
  import opened Wrappers

  /** `s.filter(p)`: the elements of `s` satisfying `p`, in their original order. */
  function Filter<T(!new)>(s: seq<T>, p: T -> bool): (r: seq<T>)
    ensures |r| <= |s|
    ensures forall x :: x in r <==> x in s && p(x)
  {
    if s == [] then [] else (if p(s[0]) then [s[0]] else []) + Filter(s[1..], p)
  }

  /** `s.reduce((sum, x) => sum + f(x), 0)` over integers. */
  function Sum<T>(s: seq<T>, f: T -> int): int
  {
    if s == [] then 0 else f(s[0]) + Sum(s[1..], f)
  }

  /** `s.reduce((sum, x) => sum + f(x), 0)` over reals. */
  function SumR<T>(s: seq<T>, f: T -> real): real
  {
    if s == [] then 0.0 else f(s[0]) + SumR(s[1..], f)
  }

  /** `m` is the mean of `n` values adding up to `total`. */
  predicate IsMean(m: real, n: nat, total: real)
  {
    m * n as real == total
  }

  /** `s.length > 0 ? sum / s.length : 0`: the mean, defined as 0 on no data. */
  function Mean<T>(s: seq<T>, f: T -> int): (m: real)
    ensures s == [] ==> m == 0.0
    ensures IsMean(m, |s|, Sum(s, f) as real)
  {
    if |s| > 0 then Sum(s, f) as real / |s| as real else 0.0
  }

  /** The same mean over a real-valued field. */
  function MeanR<T>(s: seq<T>, f: T -> real): (m: real)
    ensures s == [] ==> m == 0.0
    ensures IsMean(m, |s|, SumR(s, f))
  {
    if |s| > 0 then SumR(s, f) / |s| as real else 0.0
  }

  /** `s.slice(-n)` for a positive `n`: the last `n` elements, or all of `s` when it is shorter. */
  function TakeLast<T>(s: seq<T>, n: nat): (r: seq<T>)
    ensures |r| == Min(n, |s|)
    ensures forall i :: 0 <= i < |r| ==> r[i] == s[|s| - |r| + i]
  {
    s[|s| - Min(n, |s|)..]
  }

  /** `reverse()` on a copy. */
  function Reverse<T>(s: seq<T>): seq<T>
  {
    if s == [] then [] else Reverse(s[1..]) + [s[0]]
  }

  /** `s.slice(-n).reverse()`: the last `n` elements, newest (last) first. */
  function NewestFirst<T>(s: seq<T>, n: nat): (r: seq<T>)
    ensures |r| == Min(n, |s|)
    ensures forall i :: 0 <= i < |r| ==> r[i] == s[|s| - 1 - i]
  {
    var tail := TakeLast(s, n);
    ReverseIndex(tail);
    Reverse(tail)
  }

  /** No element occurs twice. */
  predicate NoDup<T(==)>(s: seq<T>)
  {
    forall i, j :: 0 <= i < j < |s| ==> s[i] != s[j]
  }

  /** The position `sort((a, b) => b - a)[0]` takes from: a stable descending
      sort puts first the EARLIEST of the maximal values. */
  function FirstMaxIndex(vs: seq<int>): (k: nat)
    requires vs != []
    ensures k < |vs|
    ensures forall j :: 0 <= j < |vs| ==> vs[j] <= vs[k]
    ensures forall j :: 0 <= j < k ==> vs[j] < vs[k]
  {
    if |vs| == 1 then 0
    else
      var k := FirstMaxIndex(vs[1..]) + 1;
      if vs[0] >= vs[k] then 0 else k
  }

  lemma {:induction false} ReverseIndex<T>(s: seq<T>)
    ensures |Reverse(s)| == |s|
    ensures forall i :: 0 <= i < |s| ==> Reverse(s)[i] == s[|s| - 1 - i]
  {
    if s != [] {
      ReverseIndex(s[1..]);
    }
  }

  lemma {:induction false} FilterAppend<T(!new)>(a: seq<T>, b: seq<T>, p: T -> bool)
    ensures Filter(a + b, p) == Filter(a, p) + Filter(b, p)
  {
    if a == [] {
      assert a + b == b;
    } else {
      assert (a + b)[1..] == a[1..] + b;
      FilterAppend(a[1..], b, p);
    }
  }

  /** An element the predicate rejects leaves no trace in the result. */
  lemma FilterSkip<T(!new)>(a: seq<T>, x: T, b: seq<T>, p: T -> bool)
    requires !p(x)
    ensures Filter(a + [x] + b, p) == Filter(a + b, p)
  {
    FilterAppend(a + [x], b, p);
    FilterAppend(a, [x], p);
    FilterAppend(a, b, p);
  }

  /** An element the predicate accepts is kept in its place. */
  lemma FilterKeep<T(!new)>(a: seq<T>, x: T, b: seq<T>, p: T -> bool)
    requires p(x)
    ensures Filter(a + [x] + b, p) == Filter(a, p) + [x] + Filter(b, p)
  {
    FilterAppend(a + [x], b, p);
    FilterAppend(a, [x], p);
    assert [x][1..] == [];
    assert Filter([x], p) == [x];
  }

  /** Filtering with a predicate every element meets keeps the whole sequence. */
  lemma {:induction false} FilterAll<T(!new)>(s: seq<T>, p: T -> bool)
    requires forall x :: x in s ==> p(x)
    ensures Filter(s, p) == s
  {
    if s != [] {
      assert forall x :: x in s[1..] ==> x in s;
      FilterAll(s[1..], p);
    }
  }

  /** Filtering with a predicate no element meets leaves nothing. */
  lemma {:induction false} FilterNone<T(!new)>(s: seq<T>, p: T -> bool)
    requires forall x :: x in s ==> !p(x)
    ensures Filter(s, p) == []
  {
    if s != [] {
      assert forall x :: x in s[1..] ==> x in s;
      FilterNone(s[1..], p);
    }
  }

  lemma FilterIdempotent<T(!new)>(s: seq<T>, p: T -> bool)
    ensures Filter(Filter(s, p), p) == Filter(s, p)
  {
    FilterAll(Filter(s, p), p);
  }

  lemma {:induction false} SumAppend<T>(a: seq<T>, b: seq<T>, f: T -> int)
    ensures Sum(a + b, f) == Sum(a, f) + Sum(b, f)
  {
    if a == [] {
      assert a + b == b;
    } else {
      assert (a + b)[1..] == a[1..] + b;
      SumAppend(a[1..], b, f);
    }
  }

  lemma {:induction false} SumRAppend<T>(a: seq<T>, b: seq<T>, f: T -> real)
    ensures SumR(a + b, f) == SumR(a, f) + SumR(b, f)
  {
    if a == [] {
      assert a + b == b;
    } else {
      assert (a + b)[1..] == a[1..] + b;
      SumRAppend(a[1..], b, f);
    }
  }

  /** A sum of values each within [lo, hi] lies within [lo*n, hi*n]. */
  lemma {:induction false} SumBounds<T>(s: seq<T>, f: T -> int, lo: int, hi: int)
    requires forall x :: x in s ==> lo <= f(x) <= hi
    ensures lo * |s| <= Sum(s, f) <= hi * |s|
  {
    if s != [] {
      assert forall x :: x in s[1..] ==> x in s;
      SumBounds(s[1..], f, lo, hi);
      MulSucc(lo, |s| - 1);
      MulSucc(hi, |s| - 1);
    }
  }

  /** The mean of values each within [lo, hi] lies within [lo, hi]. */
  lemma MeanBounds<T>(s: seq<T>, f: T -> int, lo: int, hi: int)
    requires s != []
    requires forall x :: x in s ==> lo <= f(x) <= hi
    ensures lo as real <= Mean(s, f) <= hi as real
  {
    SumBounds(s, f, lo, hi);
    CastProduct(lo, |s|);
    CastProduct(hi, |s|);
    DivideBounds(Sum(s, f) as real, |s| as real, lo as real, hi as real);
  }

  lemma MulSucc(a: int, k: int)
    ensures a * (k + 1) == a + a * k
  {
  }

  lemma CastProduct(a: int, b: int)
    ensures (a * b) as real == a as real * b as real
  {
  }

  lemma DivideBounds(total: real, n: real, lo: real, hi: real)
    requires n > 0.0 && lo * n <= total <= hi * n
    ensures lo <= total / n <= hi
  {
  }

  /** Each element with a non-negative value contributes non-negatively. */
  lemma {:induction false} SumNonNegative<T>(s: seq<T>, f: T -> int)
    requires forall x :: x in s ==> 0 <= f(x)
    ensures 0 <= Sum(s, f)
  {
    if s != [] {
      assert forall x :: x in s[1..] ==> x in s;
      SumNonNegative(s[1..], f);
    }
  }
}
