/** `Array.prototype.sort` with a comparator, as the dashboard uses it: always on a
    fresh copy (`[...xs].sort(cmp)`), in place. The comparator `cmp(a, b)` is
    represented by `le(a, b) == (cmp(a, b) <= 0)`, i.e. "a may stay before b".
    The JavaScript sort is stable (ECMAScript 2019 and later), and so is this one. */
module Sorting {

  /** The comparators in the dashboard compare numeric or string keys, so they are
      total preorders: any two elements compare, and the order is transitive. */
  ghost predicate TotalPreorder<T(!new)>(le: (T, T) -> bool)
  {
    (forall x, y :: le(x, y) || le(y, x)) &&
    (forall x, y, z :: le(x, y) && le(y, z) ==> le(x, z))
  }

  predicate SortedBy<T>(s: seq<T>, le: (T, T) -> bool)
  {
    forall i, j :: 0 <= i < j < |s| ==> le(s[i], s[j])
  }

  /** `out[k]` is the element that stood at `input[perm[k]]`, and no input position is
      used twice: `out` is `input` rearranged. */
  ghost predicate Rearranges<T>(out: seq<T>, input: seq<T>, perm: seq<int>)
  {
    |perm| == |out| == |input| &&
    (forall k :: 0 <= k < |out| ==> 0 <= perm[k] < |input| && out[k] == input[perm[k]]) &&
    (forall p, q :: 0 <= p < q < |out| ==> perm[p] != perm[q])
  }

  /** Among the first `n` positions, two elements that compare equal keep the order
      they had in the input. */
  ghost predicate TiesInInputOrder<T>(out: seq<T>, perm: seq<int>, le: (T, T) -> bool, n: int)
    requires |perm| == |out| && n <= |out|
  {
    forall p, q :: 0 <= p < q < n && le(out[q], out[p]) ==> perm[p] < perm[q]
  }

  /** `out` is what a stable sort of `input` by `le` returns: sorted, a rearrangement
      of the input, and equal elements in their input order. */
  ghost predicate StablySorted<T>(out: seq<T>, input: seq<T>, le: (T, T) -> bool)
  {
    SortedBy(out, le) &&
    exists perm :: Rearranges(out, input, perm) && TiesInInputOrder(out, perm, le, |out|)
  }

  /** After `i` passes: the prefix `s[..i]` is sorted with ties in input order and holds
      exactly the input positions below `i`; the rest is untouched. */
  ghost predicate SortedPrefix<T>(s: seq<T>, input: seq<T>, perm: seq<int>, le: (T, T) -> bool, i: int)
  {
    0 <= i <= |s| && Rearranges(s, input, perm) &&
    (forall p, q :: 0 <= p < q < i ==> le(s[p], s[q])) &&
    (forall k :: 0 <= k < i ==> perm[k] < i) &&
    (forall k :: i <= k < |s| ==> perm[k] == k) &&
    TiesInInputOrder(s, perm, le, i)
  }

  /** During pass `i`: the element from input position `i` stands at `j`, everything it
      has passed is strictly after it, and the other elements of `s[..i+1]` are sorted
      with ties in input order. */
  ghost predicate Inserting<T>(s: seq<T>, input: seq<T>, perm: seq<int>, le: (T, T) -> bool, i: int, j: int)
  {
    0 <= j <= i < |s| && Rearranges(s, input, perm) &&
    (forall p, q :: 0 <= p < q <= i && p != j && q != j ==> le(s[p], s[q])) &&
    (forall q :: j < q <= i ==> le(s[j], s[q]) && !le(s[q], s[j])) &&
    perm[j] == i && (forall k :: 0 <= k <= i && k != j ==> perm[k] < i) &&
    (forall k :: i < k < |s| ==> perm[k] == k) &&
    (forall p, q :: 0 <= p < q <= i && p != j && q != j && le(s[q], s[p]) ==> perm[p] < perm[q])
  }

  /** Exchanges positions `j - 1` and `j`. */
  function Swap<U>(s: seq<U>, j: int): (r: seq<U>)
    requires 0 < j < |s|
    ensures |r| == |s| && r[j - 1] == s[j] && r[j] == s[j - 1]
    ensures forall k :: 0 <= k < |s| && k != j - 1 && k != j ==> r[k] == s[k]
  {
    s[j - 1 := s[j]][j := s[j - 1]]
  }

  lemma SwapMultiset<T>(s: seq<T>, j: int)
    requires 0 < j < |s|
    ensures multiset(Swap(s, j)) == multiset(s)
  {
  }

  lemma StartPass<T(!new)>(s: seq<T>, input: seq<T>, perm: seq<int>, le: (T, T) -> bool, i: int)
    requires TotalPreorder(le) && SortedPrefix(s, input, perm, le, i) && i < |s|
    ensures Inserting(s, input, perm, le, i, i)
  {
  }

  lemma SwapRearranges<T>(s: seq<T>, input: seq<T>, perm: seq<int>, j: int)
    requires Rearranges(s, input, perm) && 0 < j < |s|
    ensures Rearranges(Swap(s, j), input, Swap(perm, j))
  {
    var s', perm' := Swap(s, j), Swap(perm, j);
    forall p, q | 0 <= p < q < |s'|
      ensures perm'[p] != perm'[q]
    {
      var p0 := if p == j - 1 then j else if p == j then j - 1 else p;
      var q0 := if q == j - 1 then j else if q == j then j - 1 else q;
      assert perm'[p] == perm[p0] && perm'[q] == perm[q0] && p0 != q0;
    }
  }

  /** Moving the element past a strictly greater neighbour keeps the pass invariant. */
  lemma SwapStep<T(!new)>(s: seq<T>, input: seq<T>, perm: seq<int>, le: (T, T) -> bool, i: int, j: int)
    requires TotalPreorder(le) && Inserting(s, input, perm, le, i, j)
    requires 0 < j && !le(s[j - 1], s[j])
    ensures Inserting(Swap(s, j), input, Swap(perm, j), le, i, j - 1)
  {
    var s', perm' := Swap(s, j), Swap(perm, j);
    SwapRearranges(s, input, perm, j);
    // Away from the moving element, positions map back to the same relative order.
    forall p, q | 0 <= p < q <= i && p != j - 1 && q != j - 1
      ensures le(s'[p], s'[q])
      ensures le(s'[q], s'[p]) ==> perm'[p] < perm'[q]
    {
      var p0 := if p == j then j - 1 else p;
      var q0 := if q == j then j - 1 else q;
      assert s'[p] == s[p0] && s'[q] == s[q0] && perm'[p] == perm[p0] && perm'[q] == perm[q0];
      assert p0 < q0 && p0 != j && q0 != j;
    }
  }

  /** The pass stops at the start or behind an element that may stay before it. */
  lemma EndPass<T(!new)>(s: seq<T>, input: seq<T>, perm: seq<int>, le: (T, T) -> bool, i: int, j: int)
    requires TotalPreorder(le) && Inserting(s, input, perm, le, i, j)
    requires j == 0 || le(s[j - 1], s[j])
    ensures SortedPrefix(s, input, perm, le, i + 1)
  {
    forall p, q | 0 <= p < q <= i
      ensures le(s[p], s[q])
    {
      if p != j && q == j {
        assert le(s[p], s[j - 1]) || p == j - 1;
      } else if p != j && q != j && j < q {
        assert p < j ==> le(s[p], s[j - 1]) || p == j - 1;
      }
    }
  }

  /** Before the first pass every element stands at its input position. */
  lemma FirstPass<T>(s: seq<T>, le: (T, T) -> bool) returns (perm: seq<int>)
    ensures SortedPrefix(s, s, perm, le, 0)
  {
    perm := seq(|s|, k => k);
  }

  /** After the last pass the whole sequence is the stable sort of the input. */
  lemma LastPass<T>(s: seq<T>, input: seq<T>, perm: seq<int>, le: (T, T) -> bool)
    requires SortedPrefix(s, input, perm, le, |s|)
    ensures SortedBy(s, le) && StablySorted(s, input, le)
  {
  }

  /** Insertion sort by adjacent swaps. An element moves left only past elements that
      are strictly after it, so equal elements keep their input order. */
  method SortBy<T(!new)>(a: array<T>, le: (T, T) -> bool)
    requires TotalPreorder(le)
    modifies a
    ensures SortedBy(a[..], le)
    ensures multiset(a[..]) == multiset(old(a[..]))
    ensures StablySorted(a[..], old(a[..]), le)
  {
    ghost var input := a[..];
    ghost var perm := FirstPass(input, le);
    var i := 0;
    while i < a.Length
      invariant multiset(a[..]) == multiset(input)
      invariant SortedPrefix(a[..], input, perm, le, i)
    {
      perm := Insert(a, i, le, input, perm);
      i := i + 1;
    }
    LastPass(a[..], input, perm, le);
  }

  /** One pass: `a[i]` moves left into the sorted prefix `a[..i]`, past the elements
      strictly after it. `perm` follows every element back to its input position. */
  method Insert<T(!new)>(a: array<T>, i: int, le: (T, T) -> bool, ghost input: seq<T>, ghost perm0: seq<int>)
    returns (ghost perm: seq<int>)
    requires TotalPreorder(le) && SortedPrefix(a[..], input, perm0, le, i) && i < a.Length
    modifies a
    ensures SortedPrefix(a[..], input, perm, le, i + 1)
    ensures multiset(a[..]) == multiset(old(a[..]))
  {
    perm := perm0;
    StartPass(a[..], input, perm, le, i);
    var j := i;
    while j > 0 && !le(a[j - 1], a[j])
      invariant multiset(a[..]) == multiset(old(a[..]))
      invariant Inserting(a[..], input, perm, le, i, j)
    {
      SwapStep(a[..], input, perm, le, i, j);
      SwapMultiset(a[..], j);
      Exchange(a, j);
      perm := Swap(perm, j);
      j := j - 1;
    }
    EndPass(a[..], input, perm, le, i, j);
  }

  /** `a[j - 1]` and `a[j]` change places. */
  method Exchange<T>(a: array<T>, j: int)
    requires 0 < j < a.Length
    modifies a
    ensures a[..] == Swap(old(a[..]), j)
  {
    a[j - 1], a[j] := a[j], a[j - 1];
  }

  /** `[...s].sort(cmp)`: sorts a fresh copy and leaves `s` as it was. */
  method SortedCopy<T(!new)>(s: seq<T>, le: (T, T) -> bool) returns (r: seq<T>)
    requires TotalPreorder(le)
    ensures SortedBy(r, le)
    ensures multiset(r) == multiset(s)
    ensures StablySorted(r, s, le)
  {
    var a := new T[|s|](i requires 0 <= i < |s| => s[i]);
    assert a[..] == s;
    SortBy(a, le);
    r := a[..];
  }
}
