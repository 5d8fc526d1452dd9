/** JavaScript building blocks the dashboard relies on, stated once:
    optional values (`undefined`), `Math.floor`/`Math.ceil`/`Math.round` on numbers,
    `reduce((s, x) => s + x, 0)`, `Array.prototype.filter` and `slice(0, n)`,
    and the ASCII behaviour of `toLowerCase`, `toUpperCase` and `String.prototype.includes`. */
module Prelude {

  datatype Option<+T> = None | Some(value: T)

  function Max(a: real, b: real): real { if a >= b then a else b }
  function Min(a: real, b: real): real { if a <= b then a else b }
  function MaxInt(a: int, b: int): int { if a >= b then a else b }
  function MinInt(a: int, b: int): int { if a <= b then a else b }

  /** `Math.ceil` of a real. */
  function Ceil(x: real): (r: int)
    ensures x <= r as real < x + 1.0
  {
    -((-x).Floor)
  }

  /** `Math.round`: halves round towards +infinity. */
  function Round(x: real): (r: int)
    ensures x - 0.5 < r as real <= x + 0.5
  {
    (x + 0.5).Floor
  }

  /** `Math.round(x * 100) / 100`, the two-decimal rounding used throughout. */
  function Round2(x: real): (r: real)
    ensures x - 0.005 < r <= x + 0.005
  {
    Round(x * 100.0) as real / 100.0
  }

  /** Rounding is exact on whole hundredths. */
  lemma Round2OfCents(n: int)
    ensures Round2(n as real / 100.0) == n as real / 100.0
  {
    assert n as real / 100.0 * 100.0 == n as real;
    assert (n as real + 0.5).Floor == n;
  }

  /** `reduce((sum, x) => sum + x, 0)`; over reals the fold order does not matter. */
  function Sum(s: seq<real>): real
  {
    if s == [] then 0.0 else s[0] + Sum(s[1..])
  }

  lemma {:induction false} SumAppend(a: seq<real>, b: seq<real>)
    ensures Sum(a + b) == Sum(a) + Sum(b)
  {
    if a == [] {
      assert a + b == b;
    } else {
      assert (a + b)[0] == a[0] && (a + b)[1..] == a[1..] + b;
      SumAppend(a[1..], b);
    }
  }

  lemma {:induction false} SumNonNegative(s: seq<real>)
    requires forall i :: 0 <= i < |s| ==> s[i] >= 0.0
    ensures Sum(s) >= 0.0
  {
    if s != [] {
      SumNonNegative(s[1..]);
    }
  }

  /** Every element of a non-negative sequence is at most the sum. */
  lemma {:induction false} ElementAtMostSum(s: seq<real>, k: int)
    requires forall i :: 0 <= i < |s| ==> s[i] >= 0.0
    requires 0 <= k < |s|
    ensures s[k] <= Sum(s)
  {
    SumNonNegative(s[1..]);
    if k > 0 {
      ElementAtMostSum(s[1..], k - 1);
    }
  }

  /** `n` copies of `c` sum to `n * c`. */
  lemma {:induction false} SumConstant(s: seq<real>, c: real)
    requires forall i :: 0 <= i < |s| ==> s[i] == c
    ensures Sum(s) == |s| as real * c
  {
    if s != [] {
      SumConstant(s[1..], c);
    }
  }

  /** Summation is linear: subtracting `d` times a weight vector subtracts `d` times its sum. */
  lemma {:induction false} SumLinear(x: seq<real>, w: seq<real>, y: seq<real>, d: real)
    requires |x| == |w| == |y|
    requires forall i :: 0 <= i < |y| ==> y[i] == x[i] - d * w[i]
    ensures Sum(y) == Sum(x) - d * Sum(w)
  {
    if y != [] {
      SumLinear(x[1..], w[1..], y[1..], d);
    }
  }

  /** Scaling every element scales the sum. */
  lemma {:induction false} SumScale(x: seq<real>, y: seq<real>, f: real)
    requires |x| == |y|
    requires forall i :: 0 <= i < |y| ==> y[i] == x[i] * f
    ensures Sum(y) == f * Sum(x)
  {
    if y != [] {
      SumScale(x[1..], y[1..], f);
    }
  }

  /** Replacing one element changes the sum by the difference. */
  lemma {:induction false} SumUpdate(s: seq<real>, k: int, v: real)
    requires 0 <= k < |s|
    ensures Sum(s[k := v]) == Sum(s) - s[k] + v
  {
    if k == 0 {
      assert s[k := v][1..] == s[1..];
    } else {
      assert s[k := v][1..] == s[1..][k - 1 := v];
      SumUpdate(s[1..], k - 1, v);
    }
  }

  /** `Array.prototype.filter`: the elements satisfying `p`, in their original order. */
  function Filter<T>(s: seq<T>, p: T -> bool): (r: seq<T>)
    ensures |r| <= |s|
    ensures forall x :: x in r ==> x in s && p(x)
    ensures forall x :: x in s && p(x) ==> x in r
  {
    if s == [] then []
    else if p(s[0]) then [s[0]] + Filter(s[1..], p)
    else Filter(s[1..], p)
  }

  /** `r` is `s` with some elements dropped and the rest left in order. */
  predicate IsSubsequence<T(==)>(r: seq<T>, s: seq<T>)
  {
    if r == [] then true
    else if s == [] then false
    else (r[0] == s[0] && IsSubsequence(r[1..], s[1..])) || IsSubsequence(r, s[1..])
  }

  lemma {:induction false} FilterIsSubsequence<T>(s: seq<T>, p: T -> bool)
    ensures IsSubsequence(Filter(s, p), s)
  {
    if s != [] {
      FilterIsSubsequence(s[1..], p);
      if p(s[0]) {
        assert Filter(s, p)[1..] == Filter(s[1..], p);
      }
    }
  }

  lemma {:induction false} SubsequencePrefix<T>(r: seq<T>, s: seq<T>, n: nat)
    requires IsSubsequence(r, s) && n <= |r|
    ensures IsSubsequence(r[..n], s)
  {
    if n == 0 {
    } else if r[0] == s[0] && IsSubsequence(r[1..], s[1..]) {
      SubsequencePrefix(r[1..], s[1..], n - 1);
      assert r[..n][1..] == r[1..][..n - 1];
    } else {
      SubsequencePrefix(r, s[1..], n);
    }
  }

  /** Filtering keeps the number of occurrences of every kept element. */
  lemma {:induction false} FilterMultiset<T>(s: seq<T>, p: T -> bool, x: T)
    requires p(x)
    ensures multiset(Filter(s, p))[x] == multiset(s)[x]
  {
    if s != [] {
      FilterMultiset(s[1..], p, x);
      assert s == [s[0]] + s[1..];
    }
  }

  predicate Distinct<T(==)>(s: seq<T>)
  {
    forall i, j :: 0 <= i < j < |s| ==> s[i] != s[j]
  }

  lemma {:induction false} FilterDistinct<T>(s: seq<T>, p: T -> bool)
    requires Distinct(s)
    ensures Distinct(Filter(s, p))
  {
    if s != [] {
      assert Distinct(s[1..]);
      FilterDistinct(s[1..], p);
      assert s[0] !in s[1..];
    }
  }

  /** Appending an element not yet present keeps a sequence free of repeats. */
  lemma AppendFreshDistinct<T>(s: seq<T>, x: T)
    requires Distinct(s) && x !in s
    ensures Distinct(s + [x])
  {
    var r := s + [x];
    forall i, j | 0 <= i < j < |r|
      ensures r[i] != r[j]
    {
      if j == |s| {
        assert r[i] in s;
      }
    }
  }

  /** `filter(y => y !== x)`: every occurrence of `x` dropped. */
  function Without<T(==)>(s: seq<T>, x: T): (r: seq<T>)
    ensures |r| <= |s| && x !in r
    ensures forall y :: y in r ==> y in s && y != x
    ensures forall y :: y in s && y != x ==> y in r
  {
    Filter(s, (y: T) => y != x)
  }

  /** Dropping `x` keeps every other element, as often as it occurred and in order. */
  lemma WithoutKeepsOthers<T>(s: seq<T>, x: T)
    ensures IsSubsequence(Without(s, x), s)
    ensures forall y :: y != x ==> multiset(Without(s, x))[y] == multiset(s)[y]
    ensures Distinct(s) ==> Distinct(Without(s, x))
  {
    FilterIsSubsequence(s, (y: T) => y != x);
    if Distinct(s) {
      FilterDistinct(s, (y: T) => y != x);
    }
    forall y | y != x
      ensures multiset(Without(s, x))[y] == multiset(s)[y]
    {
      FilterMultiset(s, (z: T) => z != x, y);
    }
  }

  /** `Array.prototype.findIndex`, with `None` for -1. */
  function FindIndex<T>(s: seq<T>, p: T -> bool): (r: Option<nat>)
    ensures r.Some? ==> r.value < |s| && p(s[r.value]) && forall j :: 0 <= j < r.value ==> !p(s[j])
    ensures r.None? ==> forall j :: 0 <= j < |s| ==> !p(s[j])
  {
    if s == [] then None
    else if p(s[0]) then Some(0)
    else match FindIndex(s[1..], p)
      case None => None
      case Some(k) => Some(k + 1)
  }

  /** `Array.prototype.find`: the first element satisfying `p`, or `undefined`. */
  function Find<T>(s: seq<T>, p: T -> bool): (r: Option<T>)
    ensures r.Some? ==> exists k :: 0 <= k < |s| && s[k] == r.value && p(s[k]) && forall j :: 0 <= j < k ==> !p(s[j])
    ensures r.None? ==> forall j :: 0 <= j < |s| ==> !p(s[j])
  {
    match FindIndex(s, p)
    case None => None
    case Some(k) => Some(s[k])
  }

  /** `slice(0, n)`. */
  function Take<T>(s: seq<T>, n: nat): (r: seq<T>)
    ensures |r| == MinInt(n, |s|)
    ensures r == s[..|r|]
  {
    if n <= |s| then s[..n] else s
  }

  /** `toLowerCase` on ASCII letters; other characters are left as they are. */
  function LowerChar(c: char): char
  {
    if 'A' <= c <= 'Z' then (c as int + 32) as char else c
  }

  function UpperChar(c: char): char
  {
    if 'a' <= c <= 'z' then (c as int - 32) as char else c
  }

  function Lower(s: string): (r: string)
    ensures |r| == |s| && forall i :: 0 <= i < |s| ==> r[i] == LowerChar(s[i])
  {
    seq(|s|, i requires 0 <= i < |s| => LowerChar(s[i]))
  }

  function Upper(s: string): (r: string)
    ensures |r| == |s| && forall i :: 0 <= i < |s| ==> r[i] == UpperChar(s[i])
  {
    seq(|s|, i requires 0 <= i < |s| => UpperChar(s[i]))
  }

  /** `s.includes(q)`: `q` occurs in `s` as a contiguous block. */
  predicate Includes(s: string, q: string)
  {
    exists i | 0 <= i <= |s| - |q| :: OccursAt(s, q, i)
  }

  predicate OccursAt(s: string, q: string, i: int)
  {
    0 <= i <= |s| - |q| && s[i..i + |q|] == q
  }
}
