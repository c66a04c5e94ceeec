/** Sums, means and extremes of sequences of reals: the reductions behind the averages. */
module Statistics {

  /** The sum of `xs`, accumulated from the front as Python's `sum` does. */
  function Sum(xs: seq<real>): real
  {
    if |xs| == 0 then 0.0 else Sum(xs[..|xs| - 1]) + xs[|xs| - 1]
  }

  /** The arithmetic mean of a non-empty sequence. */
  function Mean(xs: seq<real>): (m: real)
    requires |xs| > 0
    ensures m * (|xs| as real) == Sum(xs)
  {
    Sum(xs) / (|xs| as real)
  }

  /** The smallest element of a non-empty sequence. */
  function Min(xs: seq<real>): (m: real)
    requires |xs| > 0
    ensures m in xs
    ensures forall i :: 0 <= i < |xs| ==> m <= xs[i]
  {
    if |xs| == 1 then xs[0]
    else
      var rest := Min(xs[..|xs| - 1]);
      if xs[|xs| - 1] < rest then xs[|xs| - 1] else rest
  }

  /** The largest element of a non-empty sequence. */
  function Max(xs: seq<real>): (m: real)
    requires |xs| > 0
    ensures m in xs
    ensures forall i :: 0 <= i < |xs| ==> xs[i] <= m
  {
    if |xs| == 1 then xs[0]
    else
      var rest := Max(xs[..|xs| - 1]);
      if xs[|xs| - 1] > rest then xs[|xs| - 1] else rest
  }

  /** Element-wise bounds on a sequence bound its sum. */
  lemma {:induction false} SumBetween(xs: seq<real>, lo: real, hi: real)
    requires forall i :: 0 <= i < |xs| ==> lo <= xs[i] <= hi
    ensures (|xs| as real) * lo <= Sum(xs) <= (|xs| as real) * hi
  {
    if |xs| > 0 {
      SumBetween(xs[..|xs| - 1], lo, hi);
    }
  }

  /** A value whose n-fold lies between n-folds of two bounds lies between those bounds. */
  lemma BetweenByScaling(n: real, total: real, m: real, lo: real, hi: real)
    requires n > 0.0 && m * n == total
    requires n * lo <= total <= n * hi
    ensures lo <= m <= hi
  {
  }

  /** Element-wise bounds on a non-empty sequence bound its mean. */
  lemma MeanWithin(xs: seq<real>, lo: real, hi: real)
    requires |xs| > 0
    requires forall i :: 0 <= i < |xs| ==> lo <= xs[i] <= hi
    ensures lo <= Mean(xs) <= hi
  {
    SumBetween(xs, lo, hi);
    BetweenByScaling(|xs| as real, Sum(xs), Mean(xs), lo, hi);
  }

  /** The mean lies between the minimum and the maximum. */
  lemma MeanBetween(xs: seq<real>)
    requires |xs| > 0
    ensures Min(xs) <= Mean(xs) <= Max(xs)
  {
    MeanWithin(xs, Min(xs), Max(xs));
  }

  /** Summing a concatenation sums its parts. */
  lemma {:induction false} SumAppend(xs: seq<real>, ys: seq<real>)
    ensures Sum(xs + ys) == Sum(xs) + Sum(ys)
  {
    if |ys| == 0 {
      assert xs + ys == xs;
    } else {
      var ys' := ys[..|ys| - 1];
      assert (xs + ys)[..|xs + ys| - 1] == xs + ys';
      SumAppend(xs, ys');
    }
  }

  /** A one-element sequence sums to its element. */
  lemma SumSingleton(x: real)
    ensures Sum([x]) == x
  {
  }

  /** A sequence is its prefix, one element and its suffix. */
  lemma SplitAt(ys: seq<real>, j: nat)
    requires j < |ys|
    ensures ys == (ys[..j] + [ys[j]]) + ys[j + 1..]
  {
  }

  /** Taking one element out of a sequence takes it out of the sum. */
  lemma SumRemove(ys: seq<real>, j: nat)
    requires j < |ys|
    ensures Sum(ys) == Sum(ys[..j] + ys[j + 1..]) + ys[j]
  {
    var front, x, back := ys[..j], ys[j], ys[j + 1..];
    calc {
      Sum(ys);
    == { SplitAt(ys, j); }
      Sum((front + [x]) + back);
    == { SumAppend(front + [x], back); }
      Sum(front + [x]) + Sum(back);
    == { assert (front + [x])[..|front|] == front; }
      Sum(front) + x + Sum(back);
    == { SumAppend(front, back); }
      Sum(front + back) + x;
    }
  }

  /** Taking one element out of a sequence takes one occurrence out of its multiset. */
  lemma MultisetRemove(ys: seq<real>, j: nat)
    requires j < |ys|
    ensures multiset(ys[..j] + ys[j + 1..]) == multiset(ys) - multiset{ys[j]}
  {
    SplitAt(ys, j);
  }

  /** The sum does not depend on the order of the elements. */
  lemma {:induction false} SumPermutation(xs: seq<real>, ys: seq<real>)
    requires multiset(xs) == multiset(ys)
    ensures Sum(xs) == Sum(ys)
  {
    if |xs| == 0 {
      assert |ys| == |multiset(ys)| == 0;
    } else {
      var n := |xs|;
      var x := xs[n - 1];
      assert x in multiset(ys);
      var j :| 0 <= j < |ys| && ys[j] == x;
      MultisetRemove(xs, n - 1);
      MultisetRemove(ys, j);
      assert xs[..n - 1] + xs[n..] == xs[..n - 1];
      SumPermutation(xs[..n - 1], ys[..j] + ys[j + 1..]);
      SumRemove(ys, j);
    }
  }

  /** The mean does not depend on the order of the elements. */
  lemma MeanPermutation(xs: seq<real>, ys: seq<real>)
    requires |xs| > 0
    requires multiset(xs) == multiset(ys)
    ensures |ys| == |xs| && Mean(xs) == Mean(ys)
  {
    assert |ys| == |multiset(ys)| == |multiset(xs)| == |xs|;
    SumPermutation(xs, ys);
  }
}
