/**
 What a sized order amounts to, told in the configuration's own numbers: percentages
 of a balance, fixed notionals, minima, and which error stands for what.
 */
module OrderSizing {
  import opened Basics
  import opened SizingRisk

  // ── Is the configuration complete? ──────────────────────────────────────

  datatype Field = SizingMode | PositionPct | FixedNotionalUsdt | MaxOrderNotional | DailyCapNotional | SellSizePct

  /** The required fields that are missing, collected one by one. */
  method MissingFields(c: Config) returns (missing: seq<Field>)
    ensures missing == [] <==> ConfigReady(c)
    ensures SizingMode in missing <==> c.mode == Unset
    ensures PositionPct in missing <==> c.mode == PercentOfBalance && c.positionPct.None?
    ensures FixedNotionalUsdt in missing <==> c.mode == FixedNotional && c.fixedNotional.None?
    ensures MaxOrderNotional in missing <==> c.maxOrder.None?
    ensures DailyCapNotional in missing <==> c.dailyCap.None?
    ensures SellSizePct in missing <==> c.sellEnabled && c.sellPct.None?
  {
    missing := [];
    if c.mode == Unset {
      missing := missing + [SizingMode];
    } else if c.mode == PercentOfBalance && c.positionPct.None? {
      missing := missing + [PositionPct];
    } else if c.mode == FixedNotional && c.fixedNotional.None? {
      missing := missing + [FixedNotionalUsdt];
    }
    if c.maxOrder.None? {
      missing := missing + [MaxOrderNotional];
    }
    if c.dailyCap.None? {
      missing := missing + [DailyCapNotional];
    }
    if c.sellEnabled && c.sellPct.None? {
      missing := missing + [SellSizePct];
    }
  }

  // ── Buys ────────────────────────────────────────────────────────────────

  /** The notional the configuration asks for: a percentage of the free balance, or a fixed amount. */
  ghost predicate AsksFor(c: Config, free: real, notional: real) {
    || (c.mode == PercentOfBalance && c.positionPct.Some? && 100.0 * notional == c.positionPct.value * free)
    || (c.mode == FixedNotional && c.fixedNotional == Some(notional))
  }

  lemma RequestedIs(c: Config, freeQuote: Option<real>, notional: real)
    requires freeQuote.Some? && freeQuote.value >= 0.0
    ensures RequestedNotional(c, freeQuote) == Ok(notional) <==> AsksFor(c, freeQuote.value, notional)
  {
    if c.mode == PercentOfBalance && c.positionPct.Some? {
      Percent(c.positionPct.value, freeQuote.value, notional);
    }
  }

  lemma Percent(pct: real, amount: real, x: real)
    ensures x == pct / 100.0 * amount <==> 100.0 * x == pct * amount
  {
    assert 100.0 * (pct / 100.0 * amount) == pct * amount;
  }

  /** A quantity that passes both minima. */
  ghost predicate AboveMinima(rules: Rules, price: real, q: real) {
    q >= rules.minQty && q * price >= rules.minNotional
  }

  /**
   A buy succeeds exactly if the price is positive, the balance known, the notional asked
   for positive and affordable, the step usable, and the quantity above both minima.
   */
  lemma BuyOkIff(c: Config, rules: Rules, price: Option<real>, freeQuote: Option<real>, q: real)
    ensures BuyQuantity(c, rules, price, freeQuote) == Ok(q) <==>
      && price.Some? && price.value > 0.0 && freeQuote.Some? && freeQuote.value >= 0.0
      && exists notional :: AsksFor(c, freeQuote.value, notional) && 0.0 < notional <= freeQuote.value
           && Quantity(notional / price.value, rules) == Some(q) && AboveMinima(rules, price.value, q)
  {
    hide Quantity, AsksFor, RequestedNotional;
    if freeQuote.Some? && freeQuote.value >= 0.0 {
      forall notional
        ensures RequestedNotional(c, freeQuote) == Ok(notional) <==> AsksFor(c, freeQuote.value, notional)
      {
        RequestedIs(c, freeQuote, notional);
      }
      if RequestedNotional(c, freeQuote).Ok? {
        var n := RequestedNotional(c, freeQuote).value;
        assert AsksFor(c, freeQuote.value, n);
      }
    }
  }

  /** Each error says what was wrong, and the first thing that was. */
  lemma BuyErrors(c: Config, rules: Rules, price: Option<real>, freeQuote: Option<real>)
    ensures var r := BuyQuantity(c, rules, price, freeQuote);
      var priced := price.Some? && price.value > 0.0;
      var known := priced && freeQuote.Some? && freeQuote.value >= 0.0;
      && (r == Err(InvalidPrice) <==> !priced)
      && (r == Err(InvalidFreeQuote) <==> priced && !known)
      && (r == Err(UnsupportedMode) <==> known && c.mode == Unset)
      && (r == Err(MissingPositionPct) <==> known && c.mode == PercentOfBalance && c.positionPct.None?)
      && (r == Err(MissingFixedNotional) <==> known && c.mode == FixedNotional && c.fixedNotional.None?)
      && (r == Err(NonPositiveNotional) <==> known && exists n :: AsksFor(c, freeQuote.value, n) && n <= 0.0)
      && (r == Err(InsufficientBalance) <==> known && exists n :: AsksFor(c, freeQuote.value, n) && n > 0.0 && n > freeQuote.value)
  {
    hide Quantity, AsksFor;
    if freeQuote.Some? && freeQuote.value >= 0.0 {
      forall notional
        ensures RequestedNotional(c, freeQuote) == Ok(notional) <==> AsksFor(c, freeQuote.value, notional)
      {
        RequestedIs(c, freeQuote, notional);
      }
      if RequestedNotional(c, freeQuote).Ok? {
        assert AsksFor(c, freeQuote.value, RequestedNotional(c, freeQuote).value);
      }
    }
  }

  /** The rules of a market whose step the quantity's decimals can write. */
  ghost predicate StepWritable(rules: Rules) {
    rules.step.Some? && StepFits(rules.step.value, rules.precision)
  }

  /** The larger of two amounts. */
  function Larger(x: real, y: real): real {
    if x >= y then x else y
  }

  lemma HundredTimes(n: real, cost: real, unit: real, share: real)
    requires 100.0 * n == share && cost <= n + 0.000000000001 * Larger(n, unit) && cost > n - unit
    ensures 100.0 * cost <= share + 0.000000000001 * Larger(share, 100.0 * unit) && 100.0 * cost > share - 100.0 * unit
  {}

  /**
   A buy of a percentage of the balance costs at most that share of it plus one part in
   10^12 (of the share, or of one step if that is more), and less than one step less.
   */
  lemma PercentBuy(c: Config, rules: Rules, price: Option<real>, freeQuote: Option<real>)
    requires BuyQuantity(c, rules, price, freeQuote).Ok? && StepWritable(rules) && c.mode == PercentOfBalance
    ensures price.Some? && freeQuote.Some? && c.positionPct.Some?
    ensures var cost, share, unit := BuyQuantity(c, rules, price, freeQuote).value * price.value,
                                     c.positionPct.value * freeQuote.value, rules.step.value * price.value;
      100.0 * cost <= share + 0.000000000001 * Larger(share, 100.0 * unit) && 100.0 * cost > share - 100.0 * unit
  {
    BuyCost(c, rules, price, freeQuote);
    var n := RequestedNotional(c, freeQuote).value;
    RequestedIs(c, freeQuote, n);
    hide BuyQuantity, RequestedNotional, StepWritable, Larger;
    var cost, unit := BuyQuantity(c, rules, price, freeQuote).value * price.value, rules.step.value * price.value;
    HundredTimes(n, cost, unit, c.positionPct.value * freeQuote.value);
  }

  /** A buy of a fixed notional, likewise. */
  lemma FixedBuy(c: Config, rules: Rules, price: Option<real>, freeQuote: Option<real>)
    requires BuyQuantity(c, rules, price, freeQuote).Ok? && StepWritable(rules) && c.mode == FixedNotional
    ensures price.Some? && c.fixedNotional.Some?
    ensures var cost, unit := BuyQuantity(c, rules, price, freeQuote).value * price.value, rules.step.value * price.value;
      cost <= c.fixedNotional.value + 0.000000000001 * Larger(c.fixedNotional.value, unit) && cost > c.fixedNotional.value - unit
  {
    BuyCost(c, rules, price, freeQuote);
    RequestedIs(c, freeQuote, RequestedNotional(c, freeQuote).value);
    hide BuyQuantity, RequestedNotional, StepWritable;
  }

  /** The cost of a sized buy against the notional asked for. */
  lemma BuyCost(c: Config, rules: Rules, price: Option<real>, freeQuote: Option<real>)
    requires BuyQuantity(c, rules, price, freeQuote).Ok? && StepWritable(rules)
    ensures RequestedNotional(c, freeQuote).Ok? && price.Some? && freeQuote.Some? && freeQuote.value >= 0.0
    ensures var n, cost, unit := RequestedNotional(c, freeQuote).value, BuyQuantity(c, rules, price, freeQuote).value * price.value,
                                 rules.step.value * price.value;
      cost <= n + 0.000000000001 * Larger(n, unit) && cost > n - unit
  {
    BuyIsSized(c, rules, price, freeQuote);
    var q, n, p, step := BuyQuantity(c, rules, price, freeQuote).value, RequestedNotional(c, freeQuote).value, price.value, rules.step.value;
    hide BuyQuantity, RequestedNotional, StepFits, MultipleOf;
    OneStepShort(q, n, p, step);
  }

  lemma OneStepShort(q: real, n: real, p: real, step: real)
    requires p > 0.0 && n / p - step < q
    ensures n - step * p < q * p
  {
    assert n / p * p == n;
    assert (q - (n / p - step)) * p > 0.0;
    assert (q - (n / p - step)) * p == q * p - n / p * p + step * p;
  }

  // ── Sales ───────────────────────────────────────────────────────────────

  /** This percentage of this amount. */
  ghost predicate IsShare(share: real, pct: real, amount: real) {
    100.0 * share == pct * amount
  }

  /** A sale succeeds exactly if exits are enabled and configured and the balance known; below the minimum there is nothing to sell. */
  lemma SellOkIff(c: Config, rules: Rules, freeBase: Option<real>, q: Option<real>)
    ensures SellQuantity(c, rules, freeBase) == Ok(q) <==>
      && c.sellEnabled && c.sellPct.Some? && freeBase.Some? && freeBase.value >= 0.0
      && exists share :: IsShare(share, c.sellPct.value, freeBase.value)
           && q == if Quantity(share, rules).Some? && Quantity(share, rules).value >= rules.minQty then Quantity(share, rules) else None
    ensures SellQuantity(c, rules, freeBase) == Err(SellNotEnabled) <==> !c.sellEnabled
    ensures SellQuantity(c, rules, freeBase) == Err(MissingSellPct) <==> c.sellEnabled && c.sellPct.None?
    ensures SellQuantity(c, rules, freeBase) == Err(InvalidFreeBase) <==>
      c.sellEnabled && c.sellPct.Some? && (freeBase.None? || freeBase.value < 0.0)
  {
    if c.sellPct.Some? && freeBase.Some? {
      var share := Share(c.sellPct.value, freeBase.value);
      forall x
        ensures x == share <==> IsShare(x, c.sellPct.value, freeBase.value)
      {
        Percent(c.sellPct.value, freeBase.value, x);
      }
      hide Share, Quantity;
      assert IsShare(share, c.sellPct.value, freeBase.value);
    }
  }

  /** A sale is at most the configured percentage of the balance plus one part in 10^12, and less than one step less. */
  lemma PercentSale(c: Config, rules: Rules, freeBase: Option<real>)
    requires SellQuantity(c, rules, freeBase).Ok? && SellQuantity(c, rules, freeBase).value.Some?
    requires StepWritable(rules) && rules.step.value > 0.0 && c.sellPct.value >= 0.0
    ensures freeBase.Some?
    ensures var q, share, step := SellQuantity(c, rules, freeBase).value.value, c.sellPct.value * freeBase.value, rules.step.value;
      && MultipleOf(q, step) && q >= rules.minQty
      && 100.0 * q <= share + 0.000000000001 * Larger(share, 100.0 * step) && 100.0 * q > share - 100.0 * step
  {
    SellIsSized(c, rules, freeBase);
    Percent(c.sellPct.value, freeBase.value, Share(c.sellPct.value, freeBase.value));
    hide SellQuantity, Share, StepFits, MultipleOf;
  }
}
