/**
 The size of the first fill of a day as a function of the equity, without volatility
 targeting, and when it is the same for every equity not below a known one.
 */
module DrEntrySize {
  import opened Basics
  import opened DrReplay

  lemma TimesSign(x: real, y: real)
    requires x >= 0.0 && y >= 0.0
    ensures Times(x, y) >= 0.0
  {}

  lemma QuotientBack(x: real, q: real)
    requires q > 0.0 && x >= 0.0
    ensures x / q >= 0.0 && Times(q, x / q) == x
  {}

  function RiskAt(c: Params, peak: Positive, equity: real): real {
    RiskMult(c, equity, Max(peak, equity))
  }

  /** What the first fill spends, zero if there is none. */
  function SizeAt(c: Params, cash: real, peak: Positive, equity: real): real {
    var bid := Min(Times(Times(c.perFrac, equity), RiskAt(c, peak, equity)), Min(Times(c.expoCap, equity) - (equity - cash), cash));
    if bid < 0.01 then 0.0 else bid
  }

  /** Equities at which a first fill becomes possible. */
  function Thresholds(c: Params, peak: Positive, known: real): seq<real>
    requires c.perFrac > 0.0
  {
    [known, 0.02 / c.perFrac, 0.01 / c.perFrac] + (if c.ddGuard.Some? then [Times(1.0 - c.ddGuard.value, peak)] else [])
  }

  /** The size differs between two equities not below the known one; only known quantities are asked. */
  predicate SizeSways(c: Params, cash: real, peak: Positive, known: real) {
    && c.perFrac > 0.0 && cash >= 0.01
    && if c.expoCap >= 1.0 then Times(Times(c.perFrac, known), RiskAt(c, peak, known)) < cash
       else exists i :: 0 <= i < |Thresholds(c, peak, known)| && Thresholds(c, peak, known)[i] >= known
                        && SizeAt(c, cash, peak, Thresholds(c, peak, known)[i]) > 0.0
  }

  lemma RatioGrows(x: real, y: real, p: real)
    requires p > 0.0 && x <= y
    ensures x / p <= y / p
  {}

  lemma RatioOne(p: real)
    requires p > 0.0
    ensures p / p == 1.0
  {}

  lemma RiskIs(c: Params, peak: Positive, x: real)
    ensures RiskAt(c, peak, x) == 0.5 || RiskAt(c, peak, x) == 1.0
  {}

  /** A larger equity is not in a deeper drawdown. */
  lemma RiskGrows(c: Params, peak: Positive, x: real, y: real)
    requires 0.0 <= x <= y
    ensures RiskAt(c, peak, x) <= RiskAt(c, peak, y)
  {
    if y < peak {
      RatioGrows(x, y, peak);
    } else {
      RatioOne(y);
      if x < peak {
        RatioGrows(x, peak, peak);
        RatioOne(peak);
      } else {
        RatioOne(x);
      }
    }
  }

  lemma TimesGrow(a: real, b: real, x: real, y: real)
    requires 0.0 <= a <= b && 0.0 <= x <= y
    ensures Times(a, x) <= Times(b, y)
  {
    assert a * x <= b * x;
    assert b * x <= b * y;
  }

  function Base(c: Params, peak: Positive, equity: real): real {
    Times(Times(c.perFrac, equity), RiskAt(c, peak, equity))
  }

  lemma BaseGrows(c: Params, peak: Positive, x: real, y: real)
    requires c.perFrac > 0.0 && 0.0 <= x <= y
    ensures 0.0 <= Base(c, peak, x) <= Base(c, peak, y)
  {
    RiskGrows(c, peak, x, y);
    RiskIs(c, peak, x);
    TimesGrow(c.perFrac, c.perFrac, x, y);
    TimesSign(c.perFrac, x);
    hide RiskAt, Times;
    TimesGrow(Times(c.perFrac, x), Times(c.perFrac, y), RiskAt(c, peak, x), RiskAt(c, peak, y));
    TimesSign(Times(c.perFrac, x), RiskAt(c, peak, x));
  }

  /** The size at two equities not below the known one. */
  ghost predicate SizesDiffer(c: Params, cash: real, peak: Positive, known: real, x: real, y: real) {
    x >= known && y >= known && SizeAt(c, cash, peak, x) != SizeAt(c, cash, peak, y)
  }

  lemma QuotientEnough(a: real, p: real, x: real)
    requires p > 0.0 && a >= 0.0 && x >= a / p
    ensures Times(p, x) >= a
  {
    assert p * (a / p) == a;
    assert p * x >= p * (a / p);
  }

  lemma Halved(x: real, r: real, a: real)
    requires x >= a >= 0.0 && r >= 0.5
    ensures Times(x, r) >= 0.5 * a
  {
    assert x * r >= a * r;
    assert a * r >= a * 0.5;
  }

  lemma AvailIs(cap: real, cash: real, equity: real)
    ensures Times(cap, equity) - (equity - cash) == cash - Times(1.0 - cap, equity)
  {}

  /** With so much equity the first fill takes all cash. */
  lemma AllInAt(c: Params, cash: real, peak: Positive, equity: real)
    requires c.expoCap >= 1.0 && cash >= 0.01 && equity >= 0.0 && Base(c, peak, equity) >= cash
    ensures SizeAt(c, cash, peak, equity) == cash
  {
    AvailIs(c.expoCap, cash, equity);
    TimesSign(c.expoCap - 1.0, equity);
    assert Times(1.0 - c.expoCap, equity) == 0.0 - Times(c.expoCap - 1.0, equity);
    hide Times, RiskAt;
  }

  lemma LargeEnough(c: Params, cash: real, peak: Positive, known: real) returns (equity: real)
    requires c.perFrac > 0.0 && cash >= 0.01
    ensures equity >= known && equity >= 0.0 && Base(c, peak, equity) >= cash
  {
    var q := 2.0 * cash / c.perFrac;
    QuotientBack(2.0 * cash, c.perFrac);
    equity := Max(q, known);
    QuotientEnough(2.0 * cash, c.perFrac, equity);
    RiskIs(c, peak, equity);
    Halved(Times(c.perFrac, equity), RiskAt(c, peak, equity), 2.0 * cash);
  }

  /** With an exposure cap below one, so much equity in positions leaves no room. */
  lemma NoRoomAt(c: Params, cash: real, peak: Positive, known: real) returns (equity: real)
    requires c.expoCap < 1.0 && cash >= 0.01
    ensures equity >= known && SizeAt(c, cash, peak, equity) == 0.0
  {
    var gap := 1.0 - c.expoCap;
    equity := Max(cash / gap, known);
    QuotientEnough(cash, gap, equity);
    AvailIs(c.expoCap, cash, equity);
    hide Times, RiskAt;
  }

  lemma SwayingDiffers(c: Params, cash: real, peak: Positive, known: real) returns (x: real, y: real)
    requires SizeSways(c, cash, peak, known)
    ensures SizesDiffer(c, cash, peak, known, x, y)
  {
    if c.expoCap >= 1.0 {
      x := known;
      y := LargeEnough(c, cash, peak, known);
      AllInAt(c, cash, peak, y);
    } else {
      var i :| 0 <= i < |Thresholds(c, peak, known)| && Thresholds(c, peak, known)[i] >= known
               && SizeAt(c, cash, peak, Thresholds(c, peak, known)[i]) > 0.0;
      x := Thresholds(c, peak, known)[i];
      hide Thresholds;
      y := NoRoomAt(c, cash, peak, known);
    }
  }

  /** If any equity allows a first fill under a cap below one, one of the thresholds does. */
  lemma ThresholdsSuffice(c: Params, cash: real, peak: Positive, known: real, equity: real)
    requires c.perFrac > 0.0 && c.expoCap < 1.0 && cash >= 0.01 && 0.0 <= known <= equity && SizeAt(c, cash, peak, equity) > 0.0
    ensures SizeSways(c, cash, peak, known)
  {
    var all := Thresholds(c, peak, known);
    var t, i := ThresholdBelow(c, peak, known, equity);
    assert Base(c, peak, equity) >= 0.01;
    assert Base(c, peak, t) >= 0.01;
    AvailIs(c.expoCap, cash, equity);
    AvailIs(c.expoCap, cash, t);
    TimesGrow(1.0 - c.expoCap, 1.0 - c.expoCap, t, equity);
    hide Times, RiskAt, Thresholds;
    assert SizeAt(c, cash, peak, t) > 0.0;
    assert all[i] == t;
  }

  lemma BaseAt(c: Params, peak: Positive, x: real, r: real)
    requires c.perFrac > 0.0 && RiskAt(c, peak, x) == r
    ensures r == 1.0 ==> Base(c, peak, x) == Times(c.perFrac, x)
    ensures r == 0.5 ==> Base(c, peak, x) == 0.5 * Times(c.perFrac, x)
  {}

  lemma QuotientLeast(a: real, p: real, x: real)
    requires p > 0.0 && Times(p, x) >= a
    ensures x >= a / p
  {
    var d := x - a / p;
    assert d * p == Times(p, x) - a;
  }

  /** Of the thresholds not below the known equity, one is not above the given equity and is large enough. */
  lemma ThresholdBelow(c: Params, peak: Positive, known: real, equity: real) returns (t: real, i: nat)
    requires c.perFrac > 0.0 && 0.0 <= known <= equity && Base(c, peak, equity) >= 0.01
    ensures i < |Thresholds(c, peak, known)| && t == Thresholds(c, peak, known)[i]
    ensures known <= t <= equity && Base(c, peak, t) >= 0.01
  {
    RiskIs(c, peak, equity);
    BaseAt(c, peak, equity, RiskAt(c, peak, equity));
    if RiskAt(c, peak, equity) == 0.5 {
      t, i := HalfThreshold(c, peak, known, equity);
    } else {
      t, i := FullThreshold(c, peak, known, equity);
    }
  }

  lemma HalfThreshold(c: Params, peak: Positive, known: real, equity: real) returns (t: real, i: nat)
    requires c.perFrac > 0.0 && 0.0 <= known <= equity && RiskAt(c, peak, equity) == 0.5 && Times(c.perFrac, equity) >= 0.02
    ensures i < |Thresholds(c, peak, known)| && t == Thresholds(c, peak, known)[i]
    ensures known <= t <= equity && Base(c, peak, t) >= 0.01
  {
    QuotientLeast(0.02, c.perFrac, equity);
    i := if known < 0.02 / c.perFrac then 1 else 0;
    t := Thresholds(c, peak, known)[i];
    QuotientEnough(0.02, c.perFrac, t);
    RiskGrows(c, peak, t, equity);
    RiskIs(c, peak, t);
    BaseAt(c, peak, t, RiskAt(c, peak, t));
  }

  /** From one minus the guard of the peak on, the size is not halved. */
  lemma UnhalvedFrom(c: Params, peak: Positive, equity: real, t: real)
    requires c.ddGuard.Some? && RiskAt(c, peak, equity) == 1.0 && 0.0 <= t <= equity
    ensures Times(1.0 - c.ddGuard.value, peak) <= equity
    ensures t >= Times(1.0 - c.ddGuard.value, peak) ==> RiskAt(c, peak, t) == 1.0
  {
    var share, edge := 1.0 - c.ddGuard.value, Times(1.0 - c.ddGuard.value, peak);
    EdgeShare(share, peak);
    if equity < peak {
      assert equity / peak >= share;
      ShareOf(equity, share, peak);
      if t >= edge {
        RatioGrows(edge, t, peak);
      }
    } else {
      RatioOne(Max(peak, equity));
      assert share <= 1.0;
      ShareAtMost(share, peak);
      if t < peak {
        if t >= edge {
          RatioGrows(edge, t, peak);
        }
      } else {
        RatioOne(Max(peak, t));
      }
    }
  }

  lemma EdgeShare(share: real, p: real)
    requires p > 0.0
    ensures Times(share, p) / p == share
  {
    assert share * p / p == share;
  }

  lemma ShareOf(x: real, share: real, p: real)
    requires p > 0.0 && x / p >= share
    ensures x >= Times(share, p)
  {
    assert x / p * p == x;
    assert (x / p - share) * p >= 0.0;
  }

  lemma ShareAtMost(share: real, p: real)
    requires p > 0.0 && share <= 1.0
    ensures Times(share, p) <= p
  {}

  lemma FullThreshold(c: Params, peak: Positive, known: real, equity: real) returns (t: real, i: nat)
    requires c.perFrac > 0.0 && 0.0 <= known <= equity && RiskAt(c, peak, equity) == 1.0 && Times(c.perFrac, equity) >= 0.01
    ensures i < |Thresholds(c, peak, known)| && t == Thresholds(c, peak, known)[i]
    ensures known <= t <= equity && Base(c, peak, t) >= 0.01
  {
    QuotientLeast(0.01, c.perFrac, equity);
    var ts := Thresholds(c, peak, known);
    i := if known < ts[2] then 2 else 0;
    if c.ddGuard.Some? {
      UnhalvedFrom(c, peak, equity, known);
      if ts[i] < ts[3] {
        i := 3;
      }
      t := ts[i];
      UnhalvedFrom(c, peak, equity, t);
    } else {
      t := ts[i];
    }
    QuotientEnough(0.01, c.perFrac, t);
    BaseAt(c, peak, t, 1.0);
  }

  /** Without swaying the size is the same at all equities: nothing, or all cash under a cap of at least one. */
  lemma SteadyOtherwise(c: Params, cash: real, peak: Positive, known: real, equity: real)
    requires !SizeSways(c, cash, peak, known) && cash <= known <= equity
    ensures SizeAt(c, cash, peak, equity) == 0.0 || (SizeAt(c, cash, peak, equity) == cash && SizeAt(c, cash, peak, known) == cash)
    ensures SizeAt(c, cash, peak, equity) == SizeAt(c, cash, peak, known)
  {
    if cash < 0.01 {
      hide Times, RiskAt;
    } else if c.perFrac <= 0.0 {
      NeverSized(c, cash, peak, equity);
      NeverSized(c, cash, peak, known);
    } else if c.expoCap >= 1.0 {
      assert Base(c, peak, known) >= cash;
      BaseGrows(c, peak, known, equity);
      AllInAt(c, cash, peak, known);
      AllInAt(c, cash, peak, equity);
    } else {
      hide SizeSways;
      if SizeAt(c, cash, peak, equity) > 0.0 {
        ThresholdsSuffice(c, cash, peak, known, equity);
      }
      if SizeAt(c, cash, peak, known) > 0.0 {
        ThresholdsSuffice(c, cash, peak, known, known);
      }
      SizeNotNegative(c, cash, peak, equity);
      SizeNotNegative(c, cash, peak, known);
    }
  }

  lemma SizeNotNegative(c: Params, cash: real, peak: Positive, equity: real)
    ensures SizeAt(c, cash, peak, equity) >= 0.0
  {}

  lemma NeverSized(c: Params, cash: real, peak: Positive, equity: real)
    requires c.perFrac <= 0.0 && equity >= 0.0
    ensures SizeAt(c, cash, peak, equity) == 0.0
  {
    RiskIs(c, peak, equity);
    TimesSign(0.0 - c.perFrac, equity);
    assert Times(c.perFrac, equity) == 0.0 - Times(0.0 - c.perFrac, equity);
    hide RiskAt;
  }
}
