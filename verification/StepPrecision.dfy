/**
 How many decimals the exchange adapter gives an order step: minus the decimal
 logarithm, rounded, below one, and the rounded step itself from one on. Which steps
 that rule serves. Steps are decimal numbers, m units of the k-th decimal.
 */
module StepPrecision {
  import opened SizingRisk

  /** 10 to the k. */
  function Ten(k: nat): (t: nat)
    ensures t >= 1
  {
    if k == 0 then 1 else 10 * Ten(k - 1)
  }

  /** The value of m units of the k-th decimal. */
  function Decimal(m: nat, k: nat): real {
    m as real / Ten(k) as real
  }

  /** Written without a trailing zero after the point. */
  predicate Normal(m: nat, k: nat) {
    m > 0 && (k > 0 ==> m % 10 != 0)
  }

  // ── The rule ────────────────────────────────────────────────────────────

  /**
   Minus the decimal logarithm of the step is below d and a half: squared, to stay with whole
   numbers. The least such d is the logarithm rounded, halves up.
   */
  predicate Reaches(m: nat, k: nat, d: nat) {
    m * m * Ten(2 * d + 1) > Ten(2 * k)
  }

  lemma {:induction false} TenPlus(j: nat, k: nat)
    ensures Ten(j + k) == Ten(j) * Ten(k)
  {
    if j > 0 {
      TenPlus(j - 1, k);
    }
  }

  lemma {:induction false} TenGrows(j: nat, k: nat)
    requires j <= k
    ensures Ten(j) <= Ten(k)
    decreases k
  {
    if j < k {
      TenGrows(j, k - 1);
    }
  }

  lemma MoreIsMore(x: nat, a: nat, b: nat)
    requires a <= b
    ensures x * a <= x * b
  {}

  lemma ReachesItself(m: nat, k: nat)
    requires m > 0
    ensures Reaches(m, k, k)
  {
    assert Ten(2 * k + 1) == 10 * Ten(2 * k);
    assert m * m >= 1;
    Scaled(m * m, Ten(2 * k + 1));
  }

  lemma Scaled(x: nat, t: nat)
    requires x >= 1
    ensures x * t >= t
  {}

  /** The least d, searched from below. */
  function LeastFrom(m: nat, k: nat, d: nat): (r: nat)
    requires m > 0 && d <= k
    ensures d <= r <= k && Reaches(m, k, r)
    ensures forall e :: d <= e < r ==> !Reaches(m, k, e)
    decreases k - d
  {
    if Reaches(m, k, d) then d
    else
      ReachesItself(m, k);
      LeastFrom(m, k, d + 1)
  }

  /** The decimals the adapter derives from a step. */
  function DecimalPlaces(m: nat, k: nat): nat
    requires m > 0
  {
    if m < Ten(k) then LeastFrom(m, k, 0) else Nearest(Decimal(m, k))
  }

  // ── Which steps fit their decimals ──────────────────────────────────────

  lemma {:induction false} Pow10IsTen(p: nat)
    ensures Pow10(p) == Ten(p) as real
  {
    if p > 0 {
      Pow10IsTen(p - 1);
    }
  }

  lemma CastTimes(a: int, b: int)
    ensures (a * b) as real == a as real * b as real
  {}

  lemma QuotientTimes(m: real, t: real)
    requires t > 0.0
    ensures m / t * t == m
  {}

  lemma Cross(x: real, t: real, s: real, m: real, u: real)
    requires x * t == m && x * s == u
    ensures m * s == u * t
  {
    assert x * t * s == x * s * t;
  }

  lemma DecimalTimes(m: nat, k: nat)
    ensures Times(Decimal(m, k), Ten(k) as real) == m as real
  {
    QuotientTimes(m as real, Ten(k) as real);
  }

  lemma WholeCross(x: real, m: nat, t: nat, s: nat, u: int)
    requires Times(x, t as real) == m as real && Times(x, s as real) == u as real
    ensures m * s == u * t
  {
    CastTimes(m, s);
    CastTimes(u, t);
    Cross(x, t as real, s as real, m as real, u as real);
  }

  lemma WholeQuotient(m: nat, k: nat, d: nat, u: int)
    requires Times(Decimal(m, k), Pow10(d)) == SizingRisk.Units(u)
    ensures m * Ten(d) == u * Ten(k)
  {
    Pow10IsTen(d);
    DecimalTimes(m, k);
    hide Ten, Decimal, Pow10, Times;
    WholeCross(Decimal(m, k), m, Ten(k), Ten(d), u);
  }

  lemma NotByTen(m: nat, k: nat, d: nat, u: int)
    requires d < k && m * Ten(d) == u * Ten(k)
    ensures m % 10 == 0
  {
    TenPlus(d, k - d);
    assert Ten(k - d) == 10 * Ten(k - d - 1);
    hide Ten;
    CancelTens(m, u, Ten(d), Ten(k - d - 1));
  }

  lemma CancelTens(m: nat, u: int, t: nat, q: nat)
    requires t >= 1 && m * t == u * (t * (10 * q))
    ensures m % 10 == 0
  {
    var v := u * q;
    assert u * (t * (10 * q)) == (10 * v) * t;
    Cancel(m, 10 * v, t);
  }

  lemma Cancel(x: int, y: int, t: nat)
    requires t >= 1 && x * t == y * t
    ensures x == y
  {}

  /** A number in normal form is a whole number of units of the d-th decimal exactly if it has no more decimals. */
  lemma FitsIff(m: nat, k: nat, d: nat)
    requires Normal(m, k)
    ensures StepFits(Decimal(m, k), d) <==> k <= d
  {
    if k <= d {
      var u: int := m * Ten(d - k);
      TenPlus(k, d - k);
      Pow10IsTen(d);
      ShiftedIs(m, k, d);
      assert Times(Decimal(m, k), Pow10(d)) == SizingRisk.Units(u);
    } else if StepFits(Decimal(m, k), d) {
      var u: int :| Times(Decimal(m, k), Pow10(d)) == SizingRisk.Units(u);
      WholeQuotient(m, k, d, u);
      NotByTen(m, k, d, u);
      assert false;
    }
  }

  lemma ShiftCross(x: real, m: nat, t: nat, s: nat)
    requires Times(x, t as real) == m as real
    ensures Times(x, (t * s) as real) == (m * s) as real
  {
    CastTimes(t, s);
    CastTimes(m, s);
    assert x * (t as real * s as real) == x * t as real * s as real;
  }

  lemma ShiftedIs(m: nat, k: nat, d: nat)
    requires k <= d && Ten(d) == Ten(k) * Ten(d - k)
    ensures Times(Decimal(m, k), Ten(d) as real) == (m * Ten(d - k)) as real
  {
    DecimalTimes(m, k);
    hide Ten, Decimal, Times;
    ShiftCross(Decimal(m, k), m, Ten(k), Ten(d - k));
  }

  /** Below one, the rule reaches the last decimal exactly if the digits before it are not above three. */
  lemma ReachesLastIff(m: nat, k: nat)
    requires m > 0 && k > 0
    ensures !Reaches(m, k, k - 1) <==> m <= 3
  {
    var t := Ten(2 * k - 1);
    assert 2 * (k - 1) + 1 == 2 * k - 1;
    assert Ten(2 * k) == 10 * t;
    SquareIff(m);
    if m * m <= 10 {
      MoreIsMore(t, m * m, 10);
    } else {
      MoreIsMore(t, 11, m * m);
    }
  }

  lemma SquareIff(m: nat)
    ensures m * m <= 10 <==> m <= 3
  {
    if m >= 4 {
      assert m * m >= 4 * m;
    } else {
      assert m == 0 || m == 1 || m == 2 || m == 3;
    }
  }

  lemma EarlierReachesLess(m: nat, k: nat, d: nat, e: nat)
    requires d <= e && Reaches(m, k, d)
    ensures Reaches(m, k, e)
  {
    TenGrows(2 * d + 1, 2 * e + 1);
    MoreIsMore(m * m, Ten(2 * d + 1), Ten(2 * e + 1));
  }

  lemma LeastIsLast(m: nat, k: nat)
    requires m > 0 && k > 0
    ensures LeastFrom(m, k, 0) == k <==> m <= 3
  {
    ReachesLastIff(m, k);
    var d := LeastFrom(m, k, 0);
    hide Reaches, Ten;
    if d < k {
      EarlierReachesLess(m, k, d, k - 1);
    }
  }

  lemma BelowOne(m: nat, k: nat)
    requires Normal(m, k) && m < Ten(k)
    ensures DecimalPlaces(m, k) <= k && (DecimalPlaces(m, k) == k <==> m <= 3)
  {
    TenZero(m, k);
    LeastIsLast(m, k);
    hide Reaches, Ten, Decimal;
  }

  /**
   The adapter's decimals serve a step below one exactly if its digits are 1, 2 or 3,
   and a step from one on exactly if its decimals are not more than the step rounded.
   */
  lemma DecimalsServeIff(m: nat, k: nat)
    requires Normal(m, k)
    ensures m < Ten(k) ==> (StepFits(Decimal(m, k), DecimalPlaces(m, k)) <==> m <= 3)
    ensures m >= Ten(k) ==> (StepFits(Decimal(m, k), DecimalPlaces(m, k)) <==> k <= Nearest(Decimal(m, k)))
  {
    FitsIff(m, k, DecimalPlaces(m, k));
    hide StepFits, Decimal, Reaches, Ten, Nearest;
    if m < Ten(k) {
      BelowOne(m, k);
      hide DecimalPlaces;
    }
  }

  lemma TenZero(m: nat, k: nat)
    requires 0 < m < Ten(k)
    ensures k > 0
  {}

  lemma DecimalPositive(m: nat, k: nat)
    requires m > 0
    ensures Decimal(m, k) > 0.0
  {
    QuotientTimes(m as real, Ten(k) as real);
  }

  /**
   So the quantities of an order stay multiples of the step under formatting exactly for these
   steps; 0.5, 0.25 and 0.05 are not among them.
   */
  lemma QuantitiesStayIff(m: nat, k: nat)
    requires Normal(m, k)
    ensures Decimal(m, k) > 0.0
    ensures (forall n: nat :: ToFixed(Steps(n, Decimal(m, k)), DecimalPlaces(m, k)) == Steps(n, Decimal(m, k)))
       <==> (if m < Ten(k) then m <= 3 else k <= Nearest(Decimal(m, k)))
  {
    DecimalPositive(m, k);
    hide Ten, Nearest;
    FormatKeepsStepsIff(Decimal(m, k), DecimalPlaces(m, k));
    DecimalsServeIff(m, k);
    hide StepFits, Decimal, DecimalPlaces, ToFixed, Steps;
  }
}
