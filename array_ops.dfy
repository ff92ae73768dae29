/**
 * The built-in array operations of JavaScript that the dashboard uses
 * (Array.prototype.reduce, filter, map, find and slice), as functions on
 * sequences.  Sum is the reference definition that reduce, and the
 * counts made from filter, are proved against.
 */
module ArrayOps {
  import opened Wrappers

  /** `s.reduce(step, init)`: a left fold, first element first. */
  function Reduce<T, A>(s: seq<T>, step: (A, T) -> A, init: A): A
    decreases |s|
  {
    if s == [] then init else Reduce(s[1..], step, step(init, s[0]))
  }

  /** Reference definition: the sum of `f` over the elements of `s`. */
  function Sum<T>(s: seq<T>, f: T -> int): int
    decreases |s|
  {
    if s == [] then 0 else f(s[0]) + Sum(s[1..], f)
  }

  /** The weight that counts the elements satisfying `p`. */
  function Indicator<T>(p: T -> bool): T -> int
  {
    x => if p(x) then 1 else 0
  }

  /** `f` on the elements satisfying `p`, zero on the others. */
  function Masked<T>(p: T -> bool, f: T -> int): T -> int
  {
    x => if p(x) then f(x) else 0
  }

  /** `s.filter(p)`: the elements satisfying `p`, in their original order. */
  function Filter<T>(s: seq<T>, p: T -> bool): (r: seq<T>)
    ensures |r| <= |s|
    ensures forall i :: 0 <= i < |r| ==> r[i] in s && p(r[i])
    ensures forall i :: 0 <= i < |s| && p(s[i]) ==> s[i] in r
    ensures |r| == |s| <==> forall i :: 0 <= i < |s| ==> p(s[i])
    ensures |r| == 0 <==> forall i :: 0 <= i < |s| ==> !p(s[i])
    decreases |s|
  {
    if s == [] then []
    else
      var rest := Filter(s[1..], p);
      assert forall i :: 1 <= i < |s| ==> s[i] == s[1..][i - 1];
      if p(s[0]) then [s[0]] + rest else rest
  }

  /** `s.map(f)`: `f` applied to every element, order and length kept. */
  function Map<T, U>(s: seq<T>, f: T -> U): (r: seq<U>)
    ensures |r| == |s|
    ensures forall i :: 0 <= i < |s| ==> r[i] == f(s[i])
    decreases |s|
  {
    if s == [] then [] else [f(s[0])] + Map(s[1..], f)
  }

  /**
   * `s.find(p)`: the first element satisfying `p`, or `undefined` (None)
   * when there is none.  It never fails.
   */
  function Find<T>(s: seq<T>, p: T -> bool): (r: Option<T>)
    ensures r.None? <==> forall i :: 0 <= i < |s| ==> !p(s[i])
    ensures r.Some? ==> exists i :: 0 <= i < |s| && s[i] == r.value && p(s[i]) && forall j :: 0 <= j < i ==> !p(s[j])
    decreases |s|
  {
    if s == [] then None
    else if p(s[0]) then Some(s[0])
    else
      var r := Find(s[1..], p);
      assert forall i :: 1 <= i < |s| ==> s[i] == s[1..][i - 1];
      r
  }

  /**
   * How slice turns a relative index into an absolute one: a negative
   * index counts from the end, and the result is clamped to [0, len].
   */
  function RelativeIndex(k: int, len: nat): (r: nat)
    ensures r <= len
    ensures 0 <= k ==> r == if k < len then k else len
    ensures k < 0 ==> r == if len + k < 0 then 0 else len + k
  {
    if k < 0 then (if len + k < 0 then 0 else len + k)
    else if k < len then k else len
  }

  /** `s.slice(start, end)`: the contiguous window between the two clamped indices. */
  function Slice<T>(s: seq<T>, start: int, end: int): (r: seq<T>)
    ensures |r| <= |s|
    ensures RelativeIndex(start, |s|) + |r| <= |s|
    ensures forall i :: 0 <= i < |r| ==> r[i] == s[RelativeIndex(start, |s|) + i]
    ensures |r| == 0 <==> RelativeIndex(end, |s|) <= RelativeIndex(start, |s|)
    ensures |r| == if RelativeIndex(start, |s|) < RelativeIndex(end, |s|) then RelativeIndex(end, |s|) - RelativeIndex(start, |s|) else 0
    ensures 0 <= start <= end ==> |r| == (if end < |s| then end else |s|) - (if start < |s| then start else |s|)
  {
    var from := RelativeIndex(start, |s|);
    var to := RelativeIndex(end, |s|);
    if from < to then s[from..to] else []
  }

  // Lemmas connecting reduce and filter to the reference sum.

  /** A reduce whose step adds `f` of each element computes `init` plus the sum of `f`. */
  lemma {:induction false} ReduceAdds<T>(s: seq<T>, step: (int, T) -> int, f: T -> int, init: int)
    requires forall acc, x :: step(acc, x) == acc + f(x)
    ensures Reduce(s, step, init) == init + Sum(s, f)
    decreases |s|
  {
    if s != [] {
      ReduceAdds(s[1..], step, f, step(init, s[0]));
    }
  }

  /** Summing over a concatenation sums the two parts. */
  lemma {:induction false} SumAppend<T>(a: seq<T>, b: seq<T>, f: T -> int)
    ensures Sum(a + b, f) == Sum(a, f) + Sum(b, f)
    decreases |a|
  {
    if a == [] {
      assert a + b == b;
    } else {
      assert (a + b)[1..] == a[1..] + b;
      SumAppend(a[1..], b, f);
    }
  }

  /** A sum of a pointwise sum of weights is the sum of the two sums. */
  lemma {:induction false} SumSplit<T>(s: seq<T>, f: T -> int, g: T -> int, h: T -> int)
    requires forall x :: f(x) == g(x) + h(x)
    ensures Sum(s, f) == Sum(s, g) + Sum(s, h)
    decreases |s|
  {
    if s != [] {
      SumSplit(s[1..], f, g, h);
    }
  }

  /** Summing `f` over the filtered elements is summing the masked weight over all of them. */
  lemma {:induction false} FilterSum<T>(s: seq<T>, p: T -> bool, f: T -> int)
    ensures Sum(Filter(s, p), f) == Sum(s, Masked(p, f))
    decreases |s|
  {
    if s != [] {
      FilterSum(s[1..], p, f);
      if p(s[0]) {
        assert Filter(s, p) == [s[0]] + Filter(s[1..], p);
        assert ([s[0]] + Filter(s[1..], p))[1..] == Filter(s[1..], p);
      }
    }
  }

  /** The length of a filter is the count of the elements satisfying the predicate. */
  lemma {:induction false} FilterCount<T>(s: seq<T>, p: T -> bool)
    ensures |Filter(s, p)| == Sum(s, Indicator(p))
    decreases |s|
  {
    if s != [] {
      FilterCount(s[1..], p);
    }
  }

  /** Filtering a concatenation filters each part, in order. */
  lemma {:induction false} FilterAppend<T>(a: seq<T>, b: seq<T>, p: T -> bool)
    ensures Filter(a + b, p) == Filter(a, p) + Filter(b, p)
    decreases |a|
  {
    if a == [] {
      assert a + b == b;
    } else {
      assert (a + b)[1..] == a[1..] + b;
      FilterAppend(a[1..], b, p);
    }
  }

  /** Filtering never duplicates an element: the result is a sub-multiset of the input. */
  lemma {:induction false} FilterSubMultiset<T>(s: seq<T>, p: T -> bool)
    ensures multiset(Filter(s, p)) <= multiset(s)
    decreases |s|
  {
    if s != [] {
      FilterSubMultiset(s[1..], p);
      assert s == [s[0]] + s[1..];
      assert multiset(s) == multiset([s[0]]) + multiset(s[1..]);
    }
  }

  /** A count never exceeds the number of elements. */
  lemma {:induction false} IndicatorBound<T>(s: seq<T>, p: T -> bool)
    ensures 0 <= Sum(s, Indicator(p)) <= |s|
    decreases |s|
  {
    if s != [] {
      IndicatorBound(s[1..], p);
    }
  }

  /** Find over a concatenation: the first part wins whenever it has a match. */
  lemma {:induction false} FindAppend<T>(a: seq<T>, b: seq<T>, p: T -> bool)
    ensures Find(a + b, p) == if Find(a, p).Some? then Find(a, p) else Find(b, p)
    decreases |a|
  {
    if a == [] {
      assert a + b == b;
    } else {
      assert (a + b)[1..] == a[1..] + b;
      FindAppend(a[1..], b, p);
    }
  }

  /** Non-negative weights have a non-negative sum. */
  lemma {:induction false} SumNonnegative<T>(s: seq<T>, f: T -> int)
    requires forall i :: 0 <= i < |s| ==> f(s[i]) >= 0
    ensures Sum(s, f) >= 0
    decreases |s|
  {
    if s != [] {
      assert forall i :: 1 <= i < |s| ==> s[i] == s[1..][i - 1];
      SumNonnegative(s[1..], f);
    }
  }

  /** A sum of weights that are zero on every element is zero. */
  lemma {:induction false} SumZero<T>(s: seq<T>, f: T -> int)
    requires forall i :: 0 <= i < |s| ==> f(s[i]) == 0
    ensures Sum(s, f) == 0
    decreases |s|
  {
    if s != [] {
      assert forall i :: 1 <= i < |s| ==> s[i] == s[1..][i - 1];
      SumZero(s[1..], f);
    }
  }

  /** Sums of weights that agree on every element are equal. */
  lemma {:induction false} SumAgree<T>(s: seq<T>, f: T -> int, g: T -> int)
    requires forall i :: 0 <= i < |s| ==> f(s[i]) == g(s[i])
    ensures Sum(s, f) == Sum(s, g)
    decreases |s|
  {
    if s != [] {
      assert forall i :: 1 <= i < |s| ==> s[i] == s[1..][i - 1];
      SumAgree(s[1..], f, g);
    }
  }

  /** A sum over a three-element sequence. */
  lemma SumOfThree<T>(s: seq<T>, f: T -> int)
    requires |s| == 3
    ensures Sum(s, f) == f(s[0]) + f(s[1]) + f(s[2])
  {
    assert s[1..][0] == s[1] && s[1..][1..][0] == s[2] && s[1..][1..][1..] == [];
    assert Sum(s[1..][1..], f) == f(s[2]);
  }
}
