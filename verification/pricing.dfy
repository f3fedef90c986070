/** The arithmetic of the price fallbacks. Prices are integers and the
    factors 0.85, 0.9, 1.1 and 1.15 are exact rationals, so this model
    approximates the IEEE double arithmetic of the JavaScript code. */
module Pricing {
  import opened Records

  /** `reduce((sum, p) => sum + p, 0)`: a left fold, adding the last price
      to the sum of the others. The sum of non-negative prices is
      non-negative. */
  function Sum(xs: seq<int>): (r: int)
    ensures (forall i :: 0 <= i < |xs| ==> xs[i] >= 0) ==> r >= 0
    decreases |xs|
  {
    if xs == [] then 0 else Sum(xs[..|xs| - 1]) + xs[|xs| - 1]
  }

  /** Folding from the left and summing from the front agree. */
  lemma {:induction false} SumFromFront(xs: seq<int>)
    requires xs != []
    ensures Sum(xs) == xs[0] + Sum(xs[1..])
    decreases |xs|
  {
    var init := xs[..|xs| - 1];
    if init != [] {
      SumFromFront(init);
      assert init[1..] == xs[1..][..|xs[1..]| - 1];
    }
  }

  /** `Math.round(p / q)` for `q > 0`: the integer nearest to p/q, with
      halves rounded up (towards positive infinity, as `Math.round` does). */
  function RoundDiv(p: int, q: int): (r: int)
    requires q > 0
    ensures 2 * q * r <= 2 * p + q < 2 * q * r + 2 * q
  {
    var n, d := 2 * p + q, 2 * q;
    assert n == d * (n / d) + n % d;
    n / d
  }

  /** `Math.round(sum / length)` over a non-empty list of prices: the
      integer nearest to the average, halves rounded up. */
  function Mean(xs: seq<int>): (r: int)
    requires |xs| > 0
    ensures 2 * |xs| * r <= 2 * Sum(xs) + |xs| < 2 * |xs| * r + 2 * |xs|
  {
    RoundDiv(Sum(xs), |xs|)
  }

  /** The prices of the given listings, in order. */
  function Prices(ls: seq<Listing>): (ps: seq<int>)
    ensures |ps| == |ls|
    ensures forall i :: 0 <= i < |ls| ==> ps[i] == ls[i].price
  {
    seq(|ls|, i requires 0 <= i < |ls| => ls[i].price)
  }

  /** The fallback record around an average price: `Math.round(avg * lo/den)`
      and `Math.round(avg * hi/den)` as the bounds, confidence `medium`. */
  function Band(avg: int, lo: int, hi: int, den: int, reasoning: string): (s: PriceSuggestion)
    requires den > 0
    ensures s.suggestedPrice == avg && s.confidence == "medium" && s.reasoning == reasoning
    ensures avg >= 0 && 0 <= lo <= den <= hi ==> 0 <= s.minPrice <= s.suggestedPrice <= s.maxPrice
  {
    BandBrackets(avg, lo, hi, den);
    PriceSuggestion(avg, RoundDiv(avg * lo, den), RoundDiv(avg * hi, den), reasoning, "medium")
  }

  /** Cancelling a positive factor from a strict inequality. */
  lemma CancelLess(q: int, a: int, b: int)
    requires q > 0 && q * a < q * b
    ensures a < b
  {
  }

  /** Rounding is monotone in the numerator. */
  lemma RoundDivMonotone(p1: int, p2: int, q: int)
    requires q > 0 && p1 <= p2
    ensures RoundDiv(p1, q) <= RoundDiv(p2, q)
  {
    var r1, r2 := RoundDiv(p1, q), RoundDiv(p2, q);
    assert (2 * q) * r1 < (2 * q) * (r2 + 1);
    CancelLess(2 * q, r1, r2 + 1);
  }

  /** Rounding an exact multiple gives the multiplier back. */
  lemma RoundDivExact(a: int, q: int)
    requires q > 0
    ensures RoundDiv(a * q, q) == a
  {
    var r := RoundDiv(a * q, q);
    assert (2 * q) * r < (2 * q) * (a + 1);
    CancelLess(2 * q, r, a + 1);
    assert (2 * q) * a < (2 * q) * (r + 1);
    CancelLess(2 * q, a, r + 1);
  }

  lemma BandBrackets(avg: int, lo: int, hi: int, den: int)
    requires den > 0
    ensures avg >= 0 && 0 <= lo <= den <= hi ==>
      0 <= RoundDiv(avg * lo, den) <= avg <= RoundDiv(avg * hi, den)
  {
    if avg >= 0 && 0 <= lo <= den <= hi {
      assert 0 <= avg * lo <= avg * den <= avg * hi;
      RoundDivExact(0, den);
      RoundDivExact(avg, den);
      RoundDivMonotone(0, avg * lo, den);
      RoundDivMonotone(avg * lo, avg * den, den);
      RoundDivMonotone(avg * den, avg * hi, den);
    }
  }

  lemma {:induction false} SumBounds(xs: seq<int>, lo: int, hi: int)
    requires forall i :: 0 <= i < |xs| ==> lo <= xs[i] <= hi
    ensures |xs| * lo <= Sum(xs) <= |xs| * hi
    decreases |xs|
  {
    if xs != [] {
      SumBounds(xs[..|xs| - 1], lo, hi);
      assert |xs| * lo == (|xs| - 1) * lo + lo;
      assert |xs| * hi == (|xs| - 1) * hi + hi;
    }
  }

  /** A rounded quotient `r` of `s / n` lies in `[lo, hi]` when `s` lies in
      `[n * lo, n * hi]`. */
  lemma RoundedQuotientBetween(n: int, s: int, r: int, lo: int, hi: int)
    requires n > 0
    requires 2 * n * r <= 2 * s + n < 2 * n * r + 2 * n
    requires n * lo <= s <= n * hi
    ensures lo <= r <= hi
  {
    var nr, nh, nl := n * r, n * hi, n * lo;
    assert 2 * n * r == 2 * nr;
    assert n * (hi + 1) == nh + n;
    assert n * (lo - 1) == nl - n;
    assert nr < nh + n;
    CancelLess(n, r, hi + 1);
    assert nl - n < nr;
    CancelLess(n, lo - 1, r);
  }

  /** The rounded average lies within the range of the prices it averages;
      in particular it is non-negative when every price is. */
  lemma MeanWithinRange(xs: seq<int>, lo: int, hi: int)
    requires |xs| > 0
    requires forall i :: 0 <= i < |xs| ==> lo <= xs[i] <= hi
    ensures lo <= Mean(xs) <= hi
  {
    SumBounds(xs, lo, hi);
    RoundedQuotientBetween(|xs|, Sum(xs), Mean(xs), lo, hi);
  }
}
