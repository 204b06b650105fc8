/** `calcAvg` (main.py, lines 5-9): the arithmetic mean of a list, with the
    `ZeroDivisionError` an empty list raises. */
module Averaging {
  import opened Errors

  /** Sum of the elements, accumulated from the front as the source's loop
      does. */
  function Sum(s: seq<real>): real
  {
    if |s| == 0 then 0.0 else Sum(s[..|s| - 1]) + s[|s| - 1]
  }

  function MinOf(s: seq<real>): (m: real)
    requires |s| > 0
    ensures m in s
    ensures forall i :: 0 <= i < |s| ==> m <= s[i]
  {
    if |s| == 1 then s[0]
    else
      var r := MinOf(s[1..]);
      if s[0] <= r then s[0] else r
  }

  function MaxOf(s: seq<real>): (m: real)
    requires |s| > 0
    ensures m in s
    ensures forall i :: 0 <= i < |s| ==> s[i] <= m
  {
    if |s| == 1 then s[0]
    else
      var r := MaxOf(s[1..]);
      if r <= s[0] then s[0] else r
  }

  lemma {:induction false} SumLowerBound(s: seq<real>, lo: real)
    requires forall i :: 0 <= i < |s| ==> lo <= s[i]
    ensures lo * |s| as real <= Sum(s)
  {
    if |s| > 0 {
      SumLowerBound(s[..|s| - 1], lo);
    }
  }

  lemma {:induction false} SumUpperBound(s: seq<real>, hi: real)
    requires forall i :: 0 <= i < |s| ==> s[i] <= hi
    ensures Sum(s) <= hi * |s| as real
  {
    if |s| > 0 {
      SumUpperBound(s[..|s| - 1], hi);
    }
  }

  /** Python's true division `total / count` by a positive count. */
  function Quotient(total: real, count: nat): real
    requires count > 0
  {
    total / count as real
  }

  /** A total of at least `lo * count` gives a quotient of at least `lo`;
      likewise for an upper bound. */
  lemma QuotientAtLeast(total: real, count: nat, lo: real)
    requires count > 0
    requires lo * count as real <= total
    ensures lo <= Quotient(total, count)
  {
  }

  lemma QuotientAtMost(total: real, count: nat, hi: real)
    requires count > 0
    requires total <= hi * count as real
    ensures Quotient(total, count) <= hi
  {
  }

  /** A lower bound of every element bounds the quotient of sum and count. */
  lemma MeanAtLeast(s: seq<real>, lo: real)
    requires |s| > 0
    requires forall i :: 0 <= i < |s| ==> lo <= s[i]
    ensures lo <= Quotient(Sum(s), |s|)
  {
    SumLowerBound(s, lo);
    QuotientAtLeast(Sum(s), |s|, lo);
  }

  lemma MeanAtMost(s: seq<real>, hi: real)
    requires |s| > 0
    requires forall i :: 0 <= i < |s| ==> s[i] <= hi
    ensures Quotient(Sum(s), |s|) <= hi
  {
    SumUpperBound(s, hi);
    QuotientAtMost(Sum(s), |s|, hi);
  }

  /** The mean `calcAvg` computes: the sum divided by the count, which lies
      between the least and the greatest element; undefined (a
      `ZeroDivisionError`) exactly for the empty list. */
  function Mean(vals: seq<real>): (r: Result<real>)
    ensures r.Err? <==> |vals| == 0
    ensures r.Err? ==> r.error == ZeroDivisionError
    ensures |vals| > 0 ==> r.Ok? && MinOf(vals) <= r.value <= MaxOf(vals)
    ensures |vals| > 0 ==> r == Ok(Quotient(Sum(vals), |vals|))
  {
    if |vals| == 0 then Err(ZeroDivisionError)
    else
      MeanAtLeast(vals, MinOf(vals));
      MeanAtMost(vals, MaxOf(vals));
      Ok(Quotient(Sum(vals), |vals|))
  }

  /** The source's loop: accumulate `vals[i]` for `i` in `range(0, len(vals))`,
      then divide by `len(vals)`. */
  method CalcAvg(vals: seq<real>) returns (r: Result<real>)
    ensures r == Mean(vals)
  {
    var sum := 0.0;
    var i := 0;
    while i < |vals|
      invariant 0 <= i <= |vals|
      invariant sum == Sum(vals[..i])
    {
      assert vals[..i + 1][..i] == vals[..i];
      sum := sum + vals[i];
      i := i + 1;
    }
    assert vals[..i] == vals;
    if |vals| == 0 {
      r := Err(ZeroDivisionError);
    } else {
      r := Ok(sum / |vals| as real);
    }
  }

  lemma MeanSingleton(x: real)
    ensures Mean([x]) == Ok(x)
  {
    assert Sum([x]) == Sum([]) + x;
  }

  /** A list whose elements all equal `c` has mean `c`. */
  lemma MeanConstant(s: seq<real>, c: real)
    requires |s| > 0
    requires forall i :: 0 <= i < |s| ==> s[i] == c
    ensures Mean(s) == Ok(c)
  {
    assert MinOf(s) == c && MaxOf(s) == c;
  }
}
