/**
 The bands around the filter, and what the cascade form says of them: the
 output stays inside the range of the input so far, follows it monotonically,
 and the three bands never cross.
 */
module GaussianChannel {
  import opened GaussianFilter

  datatype Bar = Bar(open: real, high: real, low: real, close: real)
  datatype Source = Hlc3 | Ohlc4

  // ── The smoothing factor ────────────────────────────────────────────────

  /** alpha = -beta + sqrt(beta^2 + 2 beta), with the root given by what it satisfies. */
  lemma AlphaInUnit(beta: real, root: real, alpha: real)
    requires beta > 0.0 && root >= 0.0 && root * root == beta * beta + 2.0 * beta
    requires alpha == -beta + root
    ensures 0.0 < alpha < 1.0
  {
    assert (beta + 1.0) * (beta + 1.0) == beta * beta + 2.0 * beta + 1.0;
    if root <= beta {
      Product(root, root, beta, beta);
    }
    if root >= beta + 1.0 {
      Product(beta + 1.0, beta + 1.0, root, root);
    }
  }

  lemma Product(a: real, b: real, c: real, d: real)
    requires 0.0 <= a <= c && 0.0 <= b <= d
    ensures a * b <= c * d
  {
    Weighted(b, a, c);
    Weighted(c, b, d);
  }

  lemma Weighted(w: real, x: real, y: real)
    requires w >= 0.0 && x <= y
    ensures w * x <= w * y
  {
    assert w * (y - x) >= 0.0;
    assert w * (y - x) == w * y - w * x;
  }

  // ── Range and monotonicity ──────────────────────────────────────────────

  ghost predicate WithinUpTo(xs: seq<real>, t: int, lo: real, hi: real) {
    forall i :: 0 <= i <= t && i < |xs| ==> lo <= xs[i] <= hi
  }

  ghost predicate BelowUpTo(xs: seq<real>, ys: seq<real>, t: int) {
    |xs| == |ys| && forall i :: 0 <= i <= t && i < |xs| ==> xs[i] <= ys[i]
  }

  lemma AverageBetween(a: real, x: real, y: real, lo: real, hi: real)
    requires 0.0 < a < 1.0 && lo <= x <= hi && lo <= y <= hi
    ensures lo <= Average(a, x, y) <= hi
  {
    hide Times, Average;
    AverageOfSame(a, lo);
    AverageOfSame(a, hi);
    AverageMonotone(a, lo, lo, x, y);
    AverageMonotone(a, x, y, hi, hi);
  }

  lemma AverageOfSame(a: real, v: real)
    ensures Average(a, v, v) == v
  {}

  lemma AverageMonotone(a: real, x: real, y: real, x': real, y': real)
    requires 0.0 < a < 1.0 && x <= x' && y <= y'
    ensures Average(a, x, y) <= Average(a, x', y')
  {
    hide Times, Average;
    AverageSplit(a, x, y);
    AverageSplit(a, x', y');
    TimesOrder(a, x, x');
    TimesOrder(1.0 - a, y, y');
  }

  lemma TimesOrder(w: real, x: real, y: real)
    requires w >= 0.0 && x <= y
    ensures Times(w, x) <= Times(w, y)
  {
    Weighted(w, x, y);
  }

  lemma {:induction false} OnePoleWithin(xs: seq<real>, alpha: real, t: int, lo: real, hi: real)
    requires 0.0 < alpha < 1.0 && lo <= 0.0 <= hi && t < |xs|
    requires WithinUpTo(xs, t, lo, hi)
    ensures WithinUpTo(OnePole(xs, alpha), t, lo, hi)
    decreases t
  {
    hide Average;
    if t >= 0 {
      OnePoleWithin(xs, alpha, t - 1, lo, hi);
      OnePoleAt(xs, alpha, t);
      AverageBetween(alpha, xs[t], At(OnePole(xs, alpha), t - 1), lo, hi);
    }
  }

  /** Despite the recurrence's negative coefficients, no output leaves the range of the inputs so far. */
  lemma {:induction false} FilterWithin(xs: seq<real>, n: nat, alpha: real, t: int, lo: real, hi: real)
    requires 0.0 < alpha < 1.0 && lo <= 0.0 <= hi && t < |xs|
    requires WithinUpTo(xs, t, lo, hi)
    ensures WithinUpTo(Cascade(xs, n, alpha), t, lo, hi)
  {
    if n > 0 {
      FilterWithin(xs, n - 1, alpha, t, lo, hi);
      OnePoleWithin(Cascade(xs, n - 1, alpha), alpha, t, lo, hi);
    }
  }

  lemma {:induction false} OnePoleMonotone(xs: seq<real>, ys: seq<real>, alpha: real, t: int)
    requires 0.0 < alpha < 1.0 && t < |xs| && BelowUpTo(xs, ys, t)
    ensures BelowUpTo(OnePole(xs, alpha), OnePole(ys, alpha), t)
    decreases t
  {
    hide Average;
    if t >= 0 {
      OnePoleMonotone(xs, ys, alpha, t - 1);
      OnePoleAt(xs, alpha, t);
      OnePoleAt(ys, alpha, t);
      AverageMonotone(alpha, xs[t], At(OnePole(xs, alpha), t - 1), ys[t], At(OnePole(ys, alpha), t - 1));
    }
  }

  /** A higher input up to bar t never lowers the output up to bar t. */
  lemma {:induction false} FilterMonotone(xs: seq<real>, ys: seq<real>, n: nat, alpha: real, t: int)
    requires 0.0 < alpha < 1.0 && t < |xs| && BelowUpTo(xs, ys, t)
    ensures BelowUpTo(Cascade(xs, n, alpha), Cascade(ys, n, alpha), t)
  {
    if n > 0 {
      FilterMonotone(xs, ys, n - 1, alpha, t);
      OnePoleMonotone(Cascade(xs, n - 1, alpha), Cascade(ys, n - 1, alpha), alpha, t);
    }
  }

  /** The first output is alpha^n times the first input. */
  lemma {:induction false} FirstOutput(xs: seq<real>, n: nat, alpha: real)
    requires |xs| > 0
    ensures Cascade(xs, n, alpha)[0] == Times(Pow(alpha, n), xs[0])
  {
    hide Times, OnePole;
    PowUnfold(alpha, n, xs[0]);
    if n > 0 {
      FirstOutput(xs, n - 1, alpha);
      FirstAverage(Cascade(xs, n - 1, alpha), alpha);
      TimesSwap(alpha, Pow(alpha, n - 1), xs[0]);
    }
  }

  lemma FirstAverage(xs: seq<real>, alpha: real)
    requires |xs| > 0
    ensures OnePole(xs, alpha)[0] == Times(alpha, xs[0])
  {
    OnePoleAt(xs, alpha, 0);
    AverageSplit(alpha, xs[0], 0.0);
  }

  lemma {:induction false} PowPositive(a: real, n: nat)
    requires a > 0.0
    ensures Pow(a, n) > 0.0
  {
    if n > 0 {
      PowPositive(a, n - 1);
    }
  }

  // ── The channel ─────────────────────────────────────────────────────────

  function Abs(x: real): real {
    if x < 0.0 then -x else x
  }

  function Max(x: real, y: real): real {
    if x < y then y else x
  }

  function Price(b: Bar, source: Source): real {
    match source
    case Hlc3 => (b.high + b.low + b.close) / 3.0
    case Ohlc4 => (b.open + b.high + b.low + b.close) / 4.0
  }

  function Prices(bars: seq<Bar>, source: Source): (xs: seq<real>)
    ensures |xs| == |bars|
  {
    seq(|bars|, t requires 0 <= t < |bars| => Price(bars[t], source))
  }

  function RangeAt(bars: seq<Bar>, t: nat): real
    requires t < |bars|
  {
    var b := bars[t];
    if t == 0 then b.high - b.low
    else Max(Max(b.high - b.low, Abs(b.high - bars[t - 1].close)), Abs(b.low - bars[t - 1].close))
  }

  /** The sources are the means of the bar's prices. */
  lemma SourcesAreMeans(bars: seq<Bar>, t: nat)
    requires t < |bars|
    ensures 3.0 * Prices(bars, Hlc3)[t] == bars[t].high + bars[t].low + bars[t].close
    ensures 4.0 * Prices(bars, Ohlc4)[t] == bars[t].open + bars[t].high + bars[t].low + bars[t].close
  {}

  /** The largest distance between two of three prices. */
  predicate SpreadIs(r: real, x: real, y: real, z: real) {
    && r >= x - y && r >= y - x && r >= y - z && r >= z - y && r >= x - z && r >= z - x
    && (r == x - y || r == y - x || r == y - z || r == z - y || r == x - z || r == z - x)
  }

  /**
   The true range is the spread of the high, the low and the close before; for a bar whose
   high is below its low exactly if that close is not strictly between the two. The first
   bar has no close before it, and its range is the high less the low.
   */
  lemma RangeIsSpreadIff(bars: seq<Bar>, t: nat)
    requires t < |bars|
    ensures t == 0 ==> TrueRange(bars)[t] == bars[t].high - bars[t].low
    ensures t > 0 ==>
      (SpreadIs(TrueRange(bars)[t], bars[t].high, bars[t].low, bars[t - 1].close)
       <==> !(bars[t].high < bars[t - 1].close < bars[t].low))
  {
    assert TrueRange(bars)[t] == RangeAt(bars, t);
  }

  function TrueRange(bars: seq<Bar>): (rs: seq<real>)
    ensures |rs| == |bars|
  {
    seq(|bars|, t requires 0 <= t < |bars| => RangeAt(bars, t))
  }

  function Numbers(xs: seq<real>): (s: seq<Sample>)
    ensures Values(s) == xs
  {
    var s := seq(|xs|, t requires 0 <= t < |xs| => Num(xs[t]));
    assert forall t :: 0 <= t < |xs| ==> Values(s)[t] == xs[t];
    s
  }

  function Band(xs: seq<real>, rs: seq<real>, factor: real): (ys: seq<real>)
    requires |xs| == |rs|
    ensures |ys| == |xs|
  {
    seq(|xs|, t requires 0 <= t < |xs| => xs[t] + rs[t] * factor)
  }

  /** The bands lie a multiple of the range on either side. */
  lemma BandsAreApart(xs: seq<real>, rs: seq<real>, factor: real, t: nat)
    requires t < |xs| == |rs|
    ensures Band(xs, rs, factor)[t] - xs[t] == factor * rs[t]
    ensures xs[t] - Band(xs, rs, -factor)[t] == factor * rs[t]
  {}

  /** The channel of a bar series. The series is not empty: the first bar's range is read. */
  method Channel(bars: seq<Bar>, poles: nat, alpha: real, mult: real, source: Source)
    returns (filt: array<real>, upper: array<real>, lower: array<real>)
    requires |bars| > 0
    ensures filt[..] == Cascade(Prices(bars, source), poles, alpha)
    ensures upper[..] == Band(filt[..], Cascade(TrueRange(bars), poles, alpha), mult)
    ensures lower[..] == Band(filt[..], Cascade(TrueRange(bars), poles, alpha), -mult)
  {
    var n := |bars|;
    var tr := new real[n](_ => 0.0);
    tr[0] := bars[0].high - bars[0].low;
    var i := 1;
    while i < n
      invariant 1 <= i <= n
      invariant forall t :: 0 <= t < i ==> tr[t] == RangeAt(bars, t)
    {
      tr[i] := Max(Max(bars[i].high - bars[i].low, Abs(bars[i].high - bars[i - 1].close)), Abs(bars[i].low - bars[i - 1].close));
      i := i + 1;
    }
    assert tr[..] == TrueRange(bars);
    filt := Pole(Numbers(Prices(bars, source)), poles, alpha);
    var ft := Pole(Numbers(tr[..]), poles, alpha);
    var mid, width := filt[..], ft[..];
    upper := new real[n](t requires 0 <= t < n => mid[t] + width[t] * mult);
    lower := new real[n](t requires 0 <= t < n => mid[t] + width[t] * (-mult));
    assert upper[..] == Band(mid, width, mult);
    assert lower[..] == Band(mid, width, -mult);
  }

  lemma RangeNonNegative(bars: seq<Bar>)
    requires |bars| > 0 && bars[0].high >= bars[0].low
    ensures forall t :: 0 <= t < |bars| ==> TrueRange(bars)[t] >= 0.0
  {
    forall t | 0 <= t < |bars|
      ensures TrueRange(bars)[t] >= 0.0
    {
      assert TrueRange(bars)[t] == RangeAt(bars, t);
    }
  }

  ghost predicate BandsOrdered(lower: seq<real>, filt: seq<real>, upper: seq<real>) {
    && |lower| == |filt| == |upper|
    && forall t :: 0 <= t < |filt| ==> lower[t] <= filt[t] <= upper[t]
  }

  lemma {:induction false} FilterOfNonNegative(xs: seq<real>, n: nat, alpha: real, hi: real)
    requires 0.0 < alpha < 1.0
    requires forall i :: 0 <= i < |xs| ==> 0.0 <= xs[i] <= hi
    ensures forall t :: 0 <= t < |xs| ==> Cascade(xs, n, alpha)[t] >= 0.0
  {
    if |xs| > 0 {
      assert 0.0 <= xs[0] <= hi;
      FilterWithin(xs, n, alpha, |xs| - 1, 0.0, hi);
    }
  }

  lemma {:induction false} SomeUpperBound(xs: seq<real>) returns (hi: real)
    ensures forall i :: 0 <= i < |xs| ==> xs[i] <= hi
  {
    if xs == [] {
      hi := 0.0;
    } else {
      var h := SomeUpperBound(xs[1..]);
      hi := Max(h, xs[0]);
      assert forall i :: 1 <= i < |xs| ==> xs[i] == xs[1..][i - 1];
    }
  }

  /**
   The bands of a channel are in order at every bar exactly when the first bar's
   high is not below its low; no other bar has to be well formed, because from the
   second bar on the true range is a maximum over absolute values.
   */
  lemma {:induction false} BandsOrderedIff(bars: seq<Bar>, filt: seq<real>, n: nat, alpha: real, mult: real)
    requires |bars| > 0 && |filt| == |bars| && 0.0 < alpha < 1.0 && mult > 0.0
    ensures BandsOrdered(Band(filt, Cascade(TrueRange(bars), n, alpha), -mult), filt, Band(filt, Cascade(TrueRange(bars), n, alpha), mult))
       <==> bars[0].high >= bars[0].low
  {
    var rs := TrueRange(bars);
    var ft := Cascade(rs, n, alpha);
    var up, down := Band(filt, ft, mult), Band(filt, ft, -mult);
    if bars[0].high >= bars[0].low {
      RangeNonNegative(bars);
      var hi := SomeUpperBound(rs);
      FilterOfNonNegative(rs, n, alpha, hi);
      forall t | 0 <= t < |filt|
        ensures down[t] <= filt[t] <= up[t]
      {
        Widths(ft[t], mult);
      }
    } else {
      FirstOutput(rs, n, alpha);
      PowPositive(alpha, n);
      NegativeProduct(Pow(alpha, n), rs[0]);
      NegativeProduct(mult, ft[0]);
      assert ft[0] < 0.0;
      assert up[0] < filt[0];
    }
  }

  lemma Widths(w: real, m: real)
    requires w >= 0.0 && m > 0.0
    ensures w * m >= 0.0 && w * (-m) <= 0.0
  {}

  lemma NegativeProduct(a: real, b: real)
    requires a > 0.0 && b < 0.0
    ensures Times(a, b) < 0.0 && b * a < 0.0
  {}
}
