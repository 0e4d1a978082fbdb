/**
 * util/math.py: the arithmetic mean of a list of durations and the
 * component-wise mean of a list of 4-tuples of durations. Durations are
 * modelled as exact reals, so the order of summation does not matter.
 */
module Averages {
  import opened Values

  /** sum(xs). */
  function Sum(xs: seq<real>): real {
    if |xs| == 0 then 0.0 else xs[0] + Sum(xs[1..])
  }

  function Min(xs: seq<real>): (m: real)
    requires |xs| > 0
    ensures m in xs
    ensures forall i :: 0 <= i < |xs| ==> m <= xs[i]
  {
    if |xs| == 1 then xs[0]
    else
      var rest := Min(xs[1..]);
      assert forall i :: 1 <= i < |xs| ==> xs[i] == xs[1..][i - 1];
      if xs[0] <= rest then xs[0] else rest
  }

  function Max(xs: seq<real>): (m: real)
    requires |xs| > 0
    ensures m in xs
    ensures forall i :: 0 <= i < |xs| ==> xs[i] <= m
  {
    if |xs| == 1 then xs[0]
    else
      var rest := Max(xs[1..]);
      assert forall i :: 1 <= i < |xs| ==> xs[i] == xs[1..][i - 1];
      if xs[0] >= rest then xs[0] else rest
  }

  /**
   * avg_float (util/math.py:1-5): sum over length. The empty list is a
   * division by zero.
   */
  function AvgFloat(xs: seq<real>): (r: Result<real>)
    ensures r.Err? <==> |xs| == 0
    ensures r.Err? ==> r.error == ZeroDivisionError
    ensures r.Ok? ==> r.value * (|xs| as real) == Sum(xs)
  {
    if |xs| == 0 then Err(ZeroDivisionError) else Ok(Sum(xs) / (|xs| as real))
  }

  lemma {:induction false} SumBounds(xs: seq<real>, lo: real, hi: real)
    requires forall i :: 0 <= i < |xs| ==> lo <= xs[i] <= hi
    ensures (|xs| as real) * lo <= Sum(xs) <= (|xs| as real) * hi
  {
    if |xs| > 0 {
      assert forall i :: 0 <= i < |xs| - 1 ==> xs[1..][i] == xs[i + 1];
      SumBounds(xs[1..], lo, hi);
    }
  }

  /** The mean of a non-empty list lies between its minimum and its maximum. */
  lemma AvgBetweenExtremes(xs: seq<real>)
    requires |xs| > 0
    ensures AvgFloat(xs).Ok?
    ensures Min(xs) <= AvgFloat(xs).value <= Max(xs)
  {
    AvgWithin(xs, Min(xs), Max(xs));
  }

  lemma AvgWithin(xs: seq<real>, lo: real, hi: real)
    requires |xs| > 0
    requires forall i :: 0 <= i < |xs| ==> lo <= xs[i] <= hi
    ensures AvgFloat(xs).Ok? && lo <= AvgFloat(xs).value <= hi
  {
    var n, s := |xs| as real, Sum(xs);
    SumBounds(xs, lo, hi);
    QuotientBetween(s, n, lo, hi);
    assert AvgFloat(xs) == Ok(s / n);
  }

  lemma QuotientBetween(s: real, n: real, lo: real, hi: real)
    requires n > 0.0 && n * lo <= s <= n * hi
    ensures lo <= s / n <= hi
  {
    assert (s / n) * n == s;
  }

  lemma {:induction false} SumConstant(x: real, n: nat)
    ensures Sum(seq(n, _ => x)) == (n as real) * x
  {
    if n > 0 {
      assert seq(n, _ => x)[1..] == seq(n - 1, _ => x);
      SumConstant(x, n - 1);
    }
  }

  /** The mean of n > 0 copies of x (a singleton included) is x. */
  lemma AvgConstant(x: real, n: nat)
    requires n > 0
    ensures AvgFloat(seq(n, _ => x)) == Ok(x)
  {
    var xs := seq(n, _ => x);
    SumConstant(x, n);
    assert |xs| == n;
    var m := n as real;
    assert Sum(xs) == m * x;
    assert (m * x) / m == x;
    assert AvgFloat(xs) == Ok(Sum(xs) / m);
  }

  /** The 4-tuple (dispatch, wait, mean per task, total) a pipeline returns. */
  datatype Runtimes = Runtimes(dispatch: real, wait: real, perTask: real, total: real)

  /** t[k] for the tuple. */
  function Component(t: Runtimes, k: nat): real
    requires k < 4
  {
    match k
    case 0 => t.dispatch
    case 1 => t.wait
    case 2 => t.perTask
    case _ => t.total
  }

  /** [t[k] for t in ts]. */
  function Project(ts: seq<Runtimes>, k: nat): (xs: seq<real>)
    requires k < 4
    ensures |xs| == |ts|
  {
    seq(|ts|, i requires 0 <= i < |ts| => Component(ts[i], k))
  }

  /**
   * avg_float_from_tuple_list (util/math.py:8-19): component k of the result
   * is avg_float of the k-th projection; the empty list divides by zero.
   */
  function AvgFromTupleList(ts: seq<Runtimes>): (r: Result<Runtimes>)
    ensures r.Err? <==> |ts| == 0
    ensures r.Err? ==> r.error == ZeroDivisionError
    ensures r.Ok? ==> forall k :: 0 <= k < 4 ==> AvgFloat(Project(ts, k)) == Ok(Component(r.value, k))
  {
    if |ts| == 0 then Err(ZeroDivisionError)
    else
      var n := |ts| as real;
      Ok(Runtimes(Sum(Project(ts, 0)) / n, Sum(Project(ts, 1)) / n,
                  Sum(Project(ts, 2)) / n, Sum(Project(ts, 3)) / n))
  }

  /** Averaging n > 0 copies of the same tuple gives that tuple back. */
  lemma AvgFromTupleListConstant(t: Runtimes, n: nat)
    requires n > 0
    ensures AvgFromTupleList(seq(n, _ => t)) == Ok(t)
  {
    var ts := seq(n, _ => t);
    forall k | 0 <= k < 4
      ensures AvgFloat(Project(ts, k)) == Ok(Component(t, k))
    {
      assert Project(ts, k) == seq(n, _ => Component(t, k));
      AvgConstant(Component(t, k), n);
    }
    var r := AvgFromTupleList(ts).value;
    assert Component(r, 0) == Component(t, 0);
    assert Component(r, 1) == Component(t, 1);
    assert Component(r, 2) == Component(t, 2);
    assert Component(r, 3) == Component(t, 3);
  }
}
