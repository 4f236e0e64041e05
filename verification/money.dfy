/**
  Exact decimal amounts (Java `BigDecimal`) as integers in minor units, and the
  two ways the services add them up.
 */
module Money {

  /** The sum of a list of amounts, element by element from the front. */
  function Sum(xs: seq<int>): int
  {
    if |xs| == 0 then 0 else xs[0] + Sum(xs[1..])
  }

  /**
    `stream().reduce(acc, BigDecimal::add)`: a left fold that adds each
    element to the running total in list order.
   */
  function FoldSum(acc: int, xs: seq<int>): int
    decreases |xs|
  {
    if |xs| == 0 then acc else FoldSum(acc + xs[0], xs[1..])
  }

  /** The left fold the services run computes the plain sum. */
  lemma {:induction false} FoldSumIsSum(acc: int, xs: seq<int>)
    ensures FoldSum(acc, xs) == acc + Sum(xs)
    decreases |xs|
  {
    if |xs| > 0 {
      FoldSumIsSum(acc + xs[0], xs[1..]);
    }
  }

  /** Summing is additive over concatenation. */
  lemma {:induction false} SumAppend(a: seq<int>, b: seq<int>)
    ensures Sum(a + b) == Sum(a) + Sum(b)
    decreases |a|
  {
    if |a| == 0 {
      assert a + b == b;
    } else {
      assert (a + b)[1..] == a[1..] + b;
      SumAppend(a[1..], b);
    }
  }

  /** Replacing one amount changes the sum by exactly the difference. */
  lemma {:induction false} SumUpdate(xs: seq<int>, k: nat, v: int)
    requires k < |xs|
    ensures Sum(xs[k := v]) == Sum(xs) - xs[k] + v
    decreases |xs|
  {
    if k == 0 {
      assert xs[k := v][1..] == xs[1..];
    } else {
      assert xs[k := v][1..] == xs[1..][k - 1 := v];
      SumUpdate(xs[1..], k - 1, v);
    }
  }

  /** A sum of non-negative amounts is non-negative. */
  lemma {:induction false} SumNonNegative(xs: seq<int>)
    requires forall i :: 0 <= i < |xs| ==> xs[i] >= 0
    ensures Sum(xs) >= 0
    decreases |xs|
  {
    if |xs| > 0 {
      SumNonNegative(xs[1..]);
    }
  }
}
