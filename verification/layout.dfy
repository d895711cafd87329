/** Splitting the chart height across panes by their ratios
    (`_calculatePaneHeights`). Ratios are exact reals, so the model ignores
    floating-point rounding in `totalHeight * ratio / totalRatio`.

    A pane's share depends only on the pane, the total height and the total
    ratio, never on what the loop has handed out so far, so the model
    computes the shares first (`Shares`) and runs the loop over them
    (`Allot`). */
module Layout {
  import opened ChartModel

  /** `sum(p.heightRatio for p in panes)`. */
  function SumRatios(panes: seq<Pane>): (r: real)
    ensures |panes| > 0 ==> r > 0.0
    ensures |panes| == 0 ==> r == 0.0
  {
    RatiosFrom(panes, 0)
  }

  /** The ratios of the panes from position `i` on, added up. */
  function RatiosFrom(panes: seq<Pane>, i: nat): (r: real)
    requires i <= |panes|
    ensures r >= 0.0
    ensures i < |panes| ==> r >= panes[i].ratio
    decreases |panes| - i
  {
    if i == |panes| then 0.0 else panes[i].ratio + RatiosFrom(panes, i + 1)
  }

  function SumInts(xs: seq<int>): int {
    if |xs| == 0 then 0 else xs[0] + SumInts(xs[1..])
  }

  /** Python's `int(x)` on a number: truncation toward zero. */
  function Trunc(x: real): (r: int)
    ensures 0.0 <= x ==> 0 <= r && r as real <= x < r as real + 1.0
    ensures x < 0.0 ==> r <= 0 && r as real - 1.0 < x <= r as real
  {
    if x >= 0.0 then x.Floor else -((-x).Floor)
  }

  /** `int(totalHeight * pane.heightRatio / totalRatio)`: the height of a pane
      that is not the last one. */
  function Share(totalHeight: int, ratio: Ratio, totalRatio: real): int
    requires totalRatio > 0.0
  {
    Trunc(totalHeight as real * ratio / totalRatio)
  }

  /** The share of every pane, in pane order. */
  function Shares(panes: seq<Pane>, totalHeight: int, totalRatio: real): (r: seq<int>)
    requires totalRatio > 0.0 || |panes| == 0
    ensures |r| == |panes|
  {
    seq(|panes|, k requires 0 <= k < |panes| => Share(totalHeight, panes[k].ratio, totalRatio))
  }

  /** The loop of `_calculatePaneHeights` from pane `i` on, with `remaining`
      the height not yet handed out: every pane but the last takes its share
      and lowers `remaining` by it, and the last takes whatever remains. */
  function Allot(shares: seq<int>, i: nat, remaining: int): (r: seq<int>)
    requires i <= |shares|
    ensures |r| == |shares| - i
    ensures forall k :: 0 <= k < |r| - 1 ==> r[k] == shares[i + k]
    ensures |r| > 0 ==> SumInts(r) == remaining
    ensures |r| > 0 ==> r[|r| - 1] == remaining - SumInts(r[..|r| - 1])
    decreases |shares| - i
  {
    if i == |shares| then []
    else if i == |shares| - 1 then [remaining]
    else
      var rest := Allot(shares, i + 1, remaining - shares[i]);
      assert ([shares[i]] + rest)[1..] == rest;
      assert ([shares[i]] + rest)[..|rest|][1..] == rest[..|rest| - 1];
      [shares[i]] + rest
  }

  /** `_calculatePaneHeights(panes, totalHeight)`: one height per pane; the
      last pane takes what the others leave, so the heights add up to the
      total exactly. */
  function PaneHeights(panes: seq<Pane>, totalHeight: int): (r: seq<int>)
    ensures |r| == |panes|
    ensures |r| > 0 ==> SumInts(r) == totalHeight
    ensures |r| > 0 ==> r[|r| - 1] == totalHeight - SumInts(r[..|r| - 1])
  {
    Allot(Shares(panes, totalHeight, SumRatios(panes)), 0, totalHeight)
  }

  /** Every pane but the last gets the truncation of its proportional share
      of the total. */
  lemma PaneHeightsShares(panes: seq<Pane>, totalHeight: int)
    ensures forall i :: 0 <= i < |panes| - 1 ==>
      PaneHeights(panes, totalHeight)[i] == Share(totalHeight, panes[i].ratio, SumRatios(panes))
  {
    var shares := Shares(panes, totalHeight, SumRatios(panes));
    var r := Allot(shares, 0, totalHeight);
    forall i | 0 <= i < |panes| - 1
      ensures r[i] == Share(totalHeight, panes[i].ratio, SumRatios(panes))
    {
      assert r[i] == shares[0 + i] == shares[i];
    }
  }

  /** With a non-negative total, every pane height (the last included) lies
      between zero and the total. */
  lemma HeightsWithinTotal(panes: seq<Pane>, totalHeight: int)
    requires totalHeight >= 0
    ensures forall i :: 0 <= i < |panes| ==> 0 <= PaneHeights(panes, totalHeight)[i] <= totalHeight
  {
    if |panes| > 0 {
      var total := SumRatios(panes);
      var shares := Shares(panes, totalHeight, total);
      var parts := Parts(panes, totalHeight as real, total);
      SharesWithinParts(panes, totalHeight, total);
      PartsFromSum(panes, totalHeight as real, total, 0);
      ScaleWhole(totalHeight as real, total);
      AllotWithinTotal(shares, parts, totalHeight, 0, totalHeight);
    }
  }

  /** The exact proportional part `h * ratio / whole` of every pane. */
  function Parts(panes: seq<Pane>, h: real, whole: real): (r: seq<real>)
    requires whole > 0.0
    ensures |r| == |panes|
  {
    seq(|panes|, k requires 0 <= k < |panes| => h * panes[k].ratio / whole)
  }

  function SumFrom(xs: seq<real>, i: nat): real
    requires i <= |xs|
    decreases |xs| - i
  {
    if i == |xs| then 0.0 else xs[i] + SumFrom(xs, i + 1)
  }

  /** With a non-negative total, each share lies between zero and its exact
      part, and each part is non-negative. */
  lemma SharesWithinParts(panes: seq<Pane>, totalHeight: int, totalRatio: real)
    requires totalHeight >= 0 && totalRatio > 0.0
    ensures var shares := Shares(panes, totalHeight, totalRatio);
      var parts := Parts(panes, totalHeight as real, totalRatio);
      forall k :: 0 <= k < |panes| ==> 0 <= shares[k] && shares[k] as real <= parts[k] && 0.0 <= parts[k]
  {
    var shares := Shares(panes, totalHeight, totalRatio);
    var parts := Parts(panes, totalHeight as real, totalRatio);
    forall k | 0 <= k < |panes| ensures 0 <= shares[k] && shares[k] as real <= parts[k] && 0.0 <= parts[k] {
      ShareWithinPart(totalHeight, panes[k].ratio, totalRatio, shares[k], parts[k]);
    }
  }

  lemma ShareWithinPart(totalHeight: int, ratio: Ratio, totalRatio: real, share: int, part: real)
    requires totalHeight >= 0 && totalRatio > 0.0
    requires share == Share(totalHeight, ratio, totalRatio)
    requires part == totalHeight as real * ratio / totalRatio
    ensures 0 <= share && share as real <= part && 0.0 <= part
  {
    assert totalHeight as real * ratio >= 0.0;
  }

  /** The parts of the panes from `i` on add up to the part of their ratios. */
  lemma {:induction false} PartsFromSum(panes: seq<Pane>, h: real, whole: real, i: nat)
    requires whole > 0.0 && i <= |panes|
    ensures SumFrom(Parts(panes, h, whole), i) == h * RatiosFrom(panes, i) / whole
    decreases |panes| - i
  {
    if i < |panes| {
      PartsFromSum(panes, h, whole, i + 1);
      ScaleDistributes(h, panes[i].ratio, RatiosFrom(panes, i + 1), RatiosFrom(panes, i), whole);
    }
  }

  /** The loop keeps every height within `[0, totalHeight]` as long as what
      remains covers the parts of the panes still to come. */
  lemma {:induction false} AllotWithinTotal(shares: seq<int>, parts: seq<real>, totalHeight: int, i: nat, remaining: int)
    requires |parts| == |shares| && i < |shares|
    requires forall k :: 0 <= k < |shares| ==> 0 <= shares[k] && shares[k] as real <= parts[k] && 0.0 <= parts[k]
    requires SumFrom(parts, i) <= remaining as real && remaining <= totalHeight
    ensures forall k :: 0 <= k < |shares| - i ==> 0 <= Allot(shares, i, remaining)[k] <= totalHeight
    decreases |shares| - i
  {
    var r := Allot(shares, i, remaining);
    if i == |shares| - 1 {
      assert r == [remaining];
    } else {
      var rest := Allot(shares, i + 1, remaining - shares[i]);
      assert SumFrom(parts, i) == parts[i] + SumFrom(parts, i + 1);
      SumFromNonNegative(parts, i + 1);
      assert 0 <= shares[i] <= remaining - shares[i] + shares[i] <= totalHeight;
      AllotWithinTotal(shares, parts, totalHeight, i + 1, remaining - shares[i]);
      assert r == [shares[i]] + rest;
      forall k | 1 <= k < |shares| - i ensures 0 <= r[k] <= totalHeight {
        assert r[k] == rest[k - 1];
      }
    }
  }

  lemma {:induction false} SumFromNonNegative(xs: seq<real>, i: nat)
    requires i <= |xs|
    requires forall k :: 0 <= k < |xs| ==> 0.0 <= xs[k]
    ensures 0.0 <= SumFrom(xs, i)
    decreases |xs| - i
  {
    if i < |xs| {
      SumFromNonNegative(xs, i + 1);
    }
  }

  lemma ScaleDistributes(h: real, a: real, b: real, c: real, whole: real)
    requires whole > 0.0 && c == a + b
    ensures h * a / whole + h * b / whole == h * c / whole
  {
  }

  lemma ScaleWhole(h: real, whole: real)
    requires whole > 0.0
    ensures h * whole / whole == h
  {
  }

  /** Two panes weighted 3 and 1 over 800 pixels get 600 and 200. */
  lemma ThreeToOneExample(a: Pane, b: Pane)
    requires a.ratio == 3.0 && b.ratio == 1.0
    ensures PaneHeights([a, b], 800) == [600, 200]
  {
    var panes := [a, b];
    assert RatiosFrom(panes, 2) == 0.0;
    assert RatiosFrom(panes, 1) == 1.0;
    assert SumRatios(panes) == 4.0;
    var shares := Shares(panes, 800, 4.0);
    assert 800.0 * 3.0 / 4.0 == 600.0;
    assert shares[0] == 600;
    var r := PaneHeights(panes, 800);
    assert r[0] == 600;
    assert r[1] == 200 by {
      assert r[..1] == [600];
    }
  }
}
