/**
 Order sizing: rounding down to the exchange's step with a tolerance, formatting with
 a number of decimals, and the caps. Exact reals; None stands for a number that is
 not finite, or a configuration value that is missing.
 */
module SizingRisk {
  import opened Basics
  import S = TradeStore

  datatype SizingMode = Unset | PercentOfBalance | FixedNotional

  datatype Config = Config(
    mode: SizingMode,
    positionPct: Option<real>,
    fixedNotional: Option<real>,
    maxOrder: Option<real>,
    dailyCap: Option<real>,
    sellEnabled: bool,
    sellPct: Option<real>
  )

  datatype Rules = Rules(step: Option<real>, precision: nat, minQty: real, minNotional: real)

  datatype SizingError =
    | InvalidPrice | InvalidFreeQuote | MissingPositionPct | MissingFixedNotional | UnsupportedMode
    | NonPositiveNotional | InsufficientBalance | NonFiniteQuantity | BelowMinQty | BelowMinNotional
    | SellNotEnabled | MissingSellPct | InvalidFreeBase
    | MissingCaps | InvalidNotional | PerOrderMax | DailyCap

  datatype Result<T> = Ok(value: T) | Err(error: SizingError)

  // ── Arithmetic ──────────────────────────────────────────────────────────

  const TOLERANCE: real := 0.000000000001

  function Times(x: real, y: real): real { x * y }

  function Max(x: real, y: real): real { if x < y then y else x }

  function Abs(x: real): real { if x < 0.0 then 0.0 - x else x }

  function Pow10(p: nat): (r: real)
    ensures r >= 1.0
  {
    if p == 0 then 1.0 else 10.0 * Pow10(p - 1)
  }

  function RoundDownToStep(value: real, step: Option<real>): Option<real> {
    if step.None? || step.value <= 0.0 then None
    else
      var steps := value / step.value;
      var tol := Max(Abs(steps), 1.0) * TOLERANCE;
      Some((steps + tol).Floor as real * step.value)
  }

  /** The nearest integer; of two, the larger. */
  function Nearest(x: real): int {
    (x + 0.5).Floor
  }

  function Over(n: int, w: real): real
    requires w > 0.0
  {
    n as real / w
  }

  /** The nearest number with p decimals; of two, the one farther from zero. */
  function ToFixed(x: real, p: nat): real {
    if x < 0.0 then 0.0 - Over(Nearest(Times(0.0 - x, Pow10(p))), Pow10(p))
    else Over(Nearest(Times(x, Pow10(p))), Pow10(p))
  }

  /** The quantity as it is sent: rounded down to the step, then formatted. */
  function Quantity(value: real, rules: Rules): Option<real> {
    match RoundDownToStep(value, rules.step)
    case None => None
    case Some(x) => Some(ToFixed(x, rules.precision))
  }

  // ── Sizing ──────────────────────────────────────────────────────────────

  /** Every field the bot's way of sizing and selling needs is there. */
  predicate ConfigReady(c: Config) {
    && c.maxOrder.Some? && c.dailyCap.Some?
    && (c.sellEnabled ==> c.sellPct.Some?)
    && match c.mode
       case Unset => false
       case PercentOfBalance => c.positionPct.Some?
       case FixedNotional => c.fixedNotional.Some?
  }

  predicate Negative(x: Option<real>) {
    x.None? || x.value < 0.0
  }

  function RequestedNotional(c: Config, freeQuote: Option<real>): Result<real> {
    match c.mode
    case PercentOfBalance =>
      if c.positionPct.None? then Err(MissingPositionPct)
      else if Negative(freeQuote) then Err(InvalidFreeQuote)
      else Ok(c.positionPct.value / 100.0 * freeQuote.value)
    case FixedNotional =>
      if c.fixedNotional.None? then Err(MissingFixedNotional) else Ok(c.fixedNotional.value)
    case Unset => Err(UnsupportedMode)
  }

  function BuyQuantity(c: Config, rules: Rules, price: Option<real>, freeQuote: Option<real>): Result<real> {
    if price.None? || price.value <= 0.0 then Err(InvalidPrice)
    else if Negative(freeQuote) then Err(InvalidFreeQuote)
    else
      match RequestedNotional(c, freeQuote)
      case Err(e) => Err(e)
      case Ok(notional) =>
        if notional <= 0.0 then Err(NonPositiveNotional)
        else if notional > freeQuote.value then Err(InsufficientBalance)
        else
          match Quantity(notional / price.value, rules)
          case None => Err(NonFiniteQuantity)
          case Some(qty) =>
            if qty < rules.minQty then Err(BelowMinQty)
            else if Times(qty, price.value) < rules.minNotional then Err(BelowMinNotional)
            else Ok(qty)
  }

  function Share(pct: real, amount: real): real {
    pct / 100.0 * amount
  }

  /** None: no position worth selling. */
  function SellQuantity(c: Config, rules: Rules, freeBase: Option<real>): Result<Option<real>> {
    if !c.sellEnabled then Err(SellNotEnabled)
    else if c.sellPct.None? then Err(MissingSellPct)
    else if Negative(freeBase) then Err(InvalidFreeBase)
    else
      match Quantity(Share(c.sellPct.value, freeBase.value), rules)
      case None => Ok(None)
      case Some(qty) => if qty >= rules.minQty then Ok(Some(qty)) else Ok(None)
  }

  function EnforceRiskLimits(c: Config, notional: Option<real>, today: Option<real>): Option<SizingError> {
    if c.maxOrder.None? || c.dailyCap.None? then Some(MissingCaps)
    else if Negative(notional) || Negative(today) then Some(InvalidNotional)
    else if notional.value > c.maxOrder.value then Some(PerOrderMax)
    else if today.value + notional.value > c.dailyCap.value then Some(DailyCap)
    else None
  }

  // ── Rounding ────────────────────────────────────────────────────────────

  /**
   Rounding down gives the most steps that fit the value, an excess of one part in 10^12 of
   the number of steps (and no less than that part of one step) forgiven.
   */
  lemma RoundDownIs(value: real, step: real) returns (n: int, forgiven: real)
    requires step > 0.0
    ensures RoundDownToStep(value, Some(step)) == Some(Times(n as real, step))
    ensures n as real <= value / step + forgiven < n as real + 1.0
    ensures forgiven * 1000000000000.0 >= 1.0 && forgiven * 1000000000000.0 >= value / step && forgiven * 1000000000000.0 >= -(value / step)
    ensures forgiven * 1000000000000.0 in {1.0, value / step, -(value / step)}
  {
    var steps := value / step;
    forgiven := Max(Abs(steps), 1.0) * TOLERANCE;
    n := (steps + forgiven).Floor;
    var x := RoundDownToStep(value, Some(step)).value;
    assert x == Times(n as real, step);
  }

  /** Without a positive step there is no quantity. */
  lemma NoStepNoQuantity(value: real, rules: Rules)
    ensures Quantity(value, rules).None? <==> rules.step.None? || rules.step.value <= 0.0
  {}

  /** Formatting gives the nearest number with p decimals; of two, the one farther from zero. */
  lemma FormatIs(x: real, p: nat) returns (n: int)
    requires x >= 0.0
    ensures ToFixed(x, p) * Pow10(p) == n as real && n as real - 0.5 <= x * Pow10(p) < n as real + 0.5
    ensures x > 0.0 ==> ToFixed(-x, p) == -ToFixed(x, p)
  {
    n := Nearest(Times(x, Pow10(p)));
    OverTimes(n, Pow10(p));
    hide Pow10, Over;
  }

  // ── Formatting and steps ────────────────────────────────────────────────

  /** The step is a whole number of units of the last decimal. */
  ghost predicate StepFits(step: real, p: nat) {
    exists m: int :: Times(step, Pow10(p)) == Units(m)
  }

  function Units(m: int): real { m as real }

  /** n steps. */
  function Steps(n: nat, step: real): real {
    n as real * step
  }

  ghost predicate MultipleOf(q: real, step: real) {
    exists n: nat :: q == Steps(n, step)
  }

  lemma FloorOf(n: int, x: real)
    requires n as real <= x < n as real + 1.0
    ensures x.Floor == n
  {}

  lemma OverBack(x: real, w: real, m: int)
    requires w > 0.0 && Times(x, w) == Units(m)
    ensures Over(m, w) == x
  {
    assert x * w / w == x;
  }

  /** A number of whole units is left as it is. */
  lemma FixedStays(x: real, p: nat, m: int)
    requires x >= 0.0 && Times(x, Pow10(p)) == Units(m)
    ensures ToFixed(x, p) == x
  {
    FloorOf(m, Units(m) + 0.5);
    OverBack(x, Pow10(p), m);
    hide Pow10, Times, Over;
  }

  lemma OverTimes(n: int, w: real)
    requires w > 0.0
    ensures Times(Over(n, w), w) == Units(n)
  {
    assert n as real / w * w == n as real;
  }

  /** What formatting gives is a number of whole units. */
  lemma FixedIsUnits(x: real, p: nat)
    requires x >= 0.0
    ensures exists m: int :: Times(ToFixed(x, p), Pow10(p)) == Units(m)
  {
    OverTimes(Nearest(Times(x, Pow10(p))), Pow10(p));
    hide Pow10, Times, Over, Units;
  }

  lemma TimesUnits(n: nat, step: real, p: nat, m: int)
    requires Times(step, Pow10(p)) == Units(m)
    ensures Times(Steps(n, step), Pow10(p)) == Units(n * m)
  {
    var w := Pow10(p);
    hide Pow10;
    assert n as real * step * w == n as real * (step * w);
    assert n as real * m as real == (n * m) as real;
  }

  /**
   Formatting leaves every multiple of the step alone exactly when the step is a
   whole number of units of the last decimal.
   */
  lemma FormatKeepsStepsIff(step: real, p: nat)
    requires step > 0.0
    ensures (forall n: nat :: ToFixed(Steps(n, step), p) == Steps(n, step)) <==> StepFits(step, p)
  {
    if StepFits(step, p) {
      var m: int :| Times(step, Pow10(p)) == Units(m);
      forall n: nat
        ensures ToFixed(Steps(n, step), p) == Steps(n, step)
      {
        TimesUnits(n, step, p, m);
        FixedStays(Steps(n, step), p, n * m);
      }
    } else {
      FixedIsUnits(step, p);
      assert Steps(1, step) == step;
      hide ToFixed, Times, Units;
      assert ToFixed(step, p) != step;
    }
  }

  // ── What a sized order is worth ─────────────────────────────────────────

  lemma StepsBound(value: real, step: real)
    requires value >= 0.0 && step > 0.0
    ensures RoundDownToStep(value, Some(step)).Some?
    ensures var x := RoundDownToStep(value, Some(step)).value;
      MultipleOf(x, step) && x >= 0.0 && value - step < x <= value + TOLERANCE * Max(value, step)
  {
    var steps := value / step;
    QuotientNotNegative(value, step);
    var tol := Max(steps, 1.0) * TOLERANCE;
    var n: nat := (steps + tol).Floor;
    var x := RoundDownToStep(value, Some(step)).value;
    assert x == Steps(n, step);
    ScaledTolerance(steps, value, step);
    assert tol >= 0.0;
    Between(n, steps, tol, step, value);
    hide Max, RoundDownToStep, Steps;
  }

  lemma QuotientNotNegative(value: real, step: real)
    requires value >= 0.0 && step > 0.0
    ensures value / step >= 0.0 && value / step * step == value
  {}

  lemma ScaledTolerance(steps: real, value: real, step: real)
    requires step > 0.0 && steps * step == value
    ensures Max(steps, 1.0) * TOLERANCE * step == TOLERANCE * Max(value, step)
  {
    if steps < 1.0 {
      assert (1.0 - steps) * step > 0.0;
    } else {
      assert (steps - 1.0) * step >= 0.0;
    }
  }

  lemma Between(n: nat, steps: real, tol: real, step: real, value: real)
    requires steps + tol - 1.0 < n as real <= steps + tol && tol >= 0.0 && step > 0.0 && steps * step == value
    ensures value - step < Steps(n, step) <= value + tol * step && Steps(n, step) >= 0.0
  {
    var x := n as real;
    var q := Steps(n, step);
    assert q == x * step && q >= 0.0;
    Gap(steps - 1.0, x, step);
    assert (steps - 1.0) * step == value - step;
    assert (steps + tol - x) * step >= 0.0;
    assert (steps + tol - x) * step == value + tol * step - q;
  }

  lemma Gap(a: real, b: real, step: real)
    requires a < b && step > 0.0
    ensures a * step < b * step
  {
  }

  /** A quantity is a multiple of the step, less than one step below the value, and above it by the tolerance at most. */
  lemma QuantityBounds(value: real, rules: Rules)
    requires value >= 0.0 && rules.step.Some? && rules.step.value > 0.0 && StepFits(rules.step.value, rules.precision)
    ensures Quantity(value, rules).Some?
    ensures var q, step := Quantity(value, rules).value, rules.step.value;
      MultipleOf(q, step) && value - step < q <= value + TOLERANCE * Max(value, step)
  {
    var step := rules.step.value;
    StepsBound(value, step);
    FormatKeepsStepsIff(step, rules.precision);
    hide ToFixed, StepFits, Max, Steps, RoundDownToStep;
    var x := RoundDownToStep(value, rules.step).value;
    var n: nat :| x == Steps(n, step);
    assert ToFixed(Steps(n, step), rules.precision) == x;
  }

  lemma CostBound(q: real, v: real, notional: real, price: real, step: real)
    requires price > 0.0 && v * price == notional && q <= v + TOLERANCE * Max(v, step)
    ensures Times(q, price) <= notional + TOLERANCE * Max(notional, Times(step, price))
  {
    if v < step {
      assert (step - v) * price > 0.0;
    } else {
      assert (v - step) * price >= 0.0;
    }
    var excess := TOLERANCE * Max(v, step);
    assert Max(v, step) * price == Max(notional, Times(step, price));
    assert (v + excess - q) * price >= 0.0;
    assert excess * price == TOLERANCE * (Max(v, step) * price);
  }

  /**
   A buy: a multiple of the step, less than a step short of what the requested
   notional buys, costing at most the notional plus the tolerance, never more than
   the free balance plus the tolerance, and not below either minimum.
   */
  lemma BuyIsSized(c: Config, rules: Rules, price: Option<real>, freeQuote: Option<real>)
    requires BuyQuantity(c, rules, price, freeQuote).Ok?
    requires rules.step.Some? && StepFits(rules.step.value, rules.precision)
    ensures RequestedNotional(c, freeQuote).Ok? && price.Some? && price.value > 0.0 && freeQuote.Some?
    ensures var q, step, notional := BuyQuantity(c, rules, price, freeQuote).value, rules.step.value, RequestedNotional(c, freeQuote).value;
      && 0.0 < notional <= freeQuote.value
      && MultipleOf(q, step)
      && notional / price.value - step < q <= notional / price.value + TOLERANCE * Max(notional / price.value, step)
      && Times(q, price.value) <= notional + TOLERANCE * Max(notional, Times(step, price.value))
      && q >= rules.minQty && Times(q, price.value) >= rules.minNotional
  {
    hide StepFits, Max, Times, MultipleOf;
    BuyPasses(c, rules, price, freeQuote);
    var notional := RequestedNotional(c, freeQuote).value;
    QuotientNotNegative(notional, price.value);
    hide BuyQuantity, RequestedNotional, Quantity;
    QuantityBounds(notional / price.value, rules);
    CostBound(BuyQuantity(c, rules, price, freeQuote).value, notional / price.value, notional, price.value, rules.step.value);
  }

  /** What a quantity has passed by the time it is returned. */
  lemma BuyPasses(c: Config, rules: Rules, price: Option<real>, freeQuote: Option<real>)
    requires BuyQuantity(c, rules, price, freeQuote).Ok?
    ensures RequestedNotional(c, freeQuote).Ok? && price.Some? && price.value > 0.0 && freeQuote.Some?
    ensures rules.step.Some? && rules.step.value > 0.0
    ensures var q, notional := BuyQuantity(c, rules, price, freeQuote).value, RequestedNotional(c, freeQuote).value;
      && 0.0 < notional <= freeQuote.value && Quantity(notional / price.value, rules) == Some(q)
      && q >= rules.minQty && Times(q, price.value) >= rules.minNotional
  {
    hide Times, RequestedNotional, ToFixed;
  }

  /** A sale: at most the configured share of the balance plus the tolerance, a multiple of the step, not below the minimum. */
  lemma SellIsSized(c: Config, rules: Rules, freeBase: Option<real>)
    requires SellQuantity(c, rules, freeBase).Ok? && SellQuantity(c, rules, freeBase).value.Some?
    requires rules.step.Some? && rules.step.value > 0.0 && StepFits(rules.step.value, rules.precision) && c.sellPct.value >= 0.0
    ensures freeBase.Some?
    ensures var q, step, value := SellQuantity(c, rules, freeBase).value.value, rules.step.value, Share(c.sellPct.value, freeBase.value);
      && MultipleOf(q, step)
      && value - step < q <= value + TOLERANCE * Max(value, step)
      && q >= rules.minQty
  {
    ShareNotNegative(c.sellPct.value, freeBase.value);
    hide Share, Quantity, StepFits, Max, Times, MultipleOf;
    QuantityBounds(Share(c.sellPct.value, freeBase.value), rules);
  }

  lemma ShareNotNegative(pct: real, amount: real)
    requires pct >= 0.0 && amount >= 0.0
    ensures Share(pct, amount) >= 0.0
  {}

  /**
   The hypothesis is needed: with a step of one half and no decimals, a request for
   0.7 at a price of 1 buys 1, for more than was requested and was there.
   */
  lemma HalfStepOverspends()
    ensures var c := Config(FixedNotional, None, Some(0.7), None, None, false, None);
      var rules := Rules(Some(0.5), 0, 0.0, 0.0);
      && BuyQuantity(c, rules, Some(1.0), Some(0.7)) == Ok(1.0)
      && Times(1.0, 1.0) > 0.7 + TOLERANCE * Max(0.7, 0.5 * 1.0)
      && !StepFits(0.5, 0)
  {
    hide Quantity, StepFits;
    HalfStepRounds();
    HalfStepMisfits();
    assert 0.7 / 1.0 == 0.7;
  }

  lemma HalfStepMisfits()
    ensures !StepFits(0.5, 0)
  {
    assert Times(0.5, Pow10(0)) == 0.5;
    forall m: int
      ensures Units(m) != 0.5
    {}
    hide Times, Units;
  }

  lemma HalfStepRounds()
    ensures Quantity(0.7, Rules(Some(0.5), 0, 0.0, 0.0)) == Some(1.0)
  {
    var steps := 0.7 / 0.5;
    assert steps == 1.4;
    FloorOf(1, steps + Max(Abs(steps), 1.0) * TOLERANCE);
    assert RoundDownToStep(0.7, Some(0.5)) == Some(0.5);
    FloorOf(1, 0.5 + 0.5);
    assert Times(0.5, Pow10(0)) == 0.5;
    assert ToFixed(0.5, 0) == 1.0;
    hide RoundDownToStep, ToFixed;
  }

  // ── The caps ────────────────────────────────────────────────────────────

  /** The reservation's checks are these checks, in this order, against the day's running sum. */
  lemma ReservationEnforces(trades: seq<S.Trade>, key: S.Key, cid: nat, notional: real, c: Config, now: nat)
    requires notional > 0.0 && S.DaySum(trades, key.bot, S.DayStart(now)) >= 0.0
    ensures var today := S.DaySum(trades, key.bot, S.DayStart(now));
      var outcome := S.Reserve(trades, key, cid, S.Buy, Some(notional), S.Limits(c.maxOrder, c.dailyCap), now);
      match EnforceRiskLimits(c, Some(notional), Some(today))
      case None => outcome == S.Reserved(|trades|) || outcome == S.Rejected(S.DuplicateSignal)
      case Some(e) =>
        (e == MissingCaps && outcome == S.Rejected(S.InvalidInput))
        || (e == PerOrderMax && outcome == S.Rejected(S.PerOrderMax))
        || (e == DailyCap && outcome == S.Rejected(S.DailyCapReached))
  {}
}
