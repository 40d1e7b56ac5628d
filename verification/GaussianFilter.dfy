/**
 The Gaussian-channel filter: the n-pole recurrence, the cascade of one-pole
 averages it stands for, and the bands drawn around it.

 Prices are exact reals; a bar may be missing (NaN).
 */
module GaussianFilter {

  datatype Sample = NaN | Num(v: real)

  /** What the recurrence reads from a bar: a missing one contributes nothing. */
  function Value(s: Sample): real {
    match s
    case NaN => 0.0
    case Num(v) => v
  }

  function Values(series: seq<Sample>): (xs: seq<real>)
    ensures |xs| == |series|
  {
    seq(|series|, t requires 0 <= t < |series| => Value(series[t]))
  }

  // ── Products ────────────────────────────────────────────────────────────

  /** A product kept folded while sums are rearranged around it. */
  function Times(a: real, b: real): real {
    a * b
  }

  lemma TimesMinus(q: real, x: real, a: real, b: real)
    requires x == a - b
    ensures Times(q, x) == Times(q, a) - Times(q, b)
  {}

  lemma TimesSwap(a: real, b: real, c: real)
    ensures Times(a, Times(b, c)) == Times(b, Times(a, c))
    ensures Times(a, Times(b, c)) == Times(Times(a, b), c)
  {}

  // ── Powers and binomial coefficients ────────────────────────────────────

  function Pow(b: real, n: nat): real {
    if n == 0 then 1.0 else Times(b, Pow(b, n - 1))
  }

  /** The table of binomial coefficients, row by row. */
  function Comb(n: nat, k: nat): nat {
    if k == 0 then 1
    else if n == 0 then 0
    else Comb(n - 1, k - 1) + Comb(n - 1, k)
  }

  function Factorial(n: nat): (f: nat)
    ensures f >= 1
  {
    if n == 0 then 1 else n * Factorial(n - 1)
  }

  lemma {:induction false} CombAboveRow(n: nat, k: nat)
    requires k > n
    ensures Comb(n, k) == 0
  {
    if n > 0 {
      CombAboveRow(n - 1, k - 1);
      CombAboveRow(n - 1, k);
    }
  }

  lemma {:induction false} CombDiagonal(n: nat)
    ensures Comb(n, n) == 1
  {
    if n > 0 {
      CombDiagonal(n - 1);
      CombAboveRow(n - 1, n);
    }
  }

  /** The table holds n! / (k! (n-k)!), the value the standard library's comb returns. */
  lemma {:induction false} CombIsBinomial(n: nat, k: nat)
    requires k <= n
    ensures Comb(n, k) * (Factorial(k) * Factorial(n - k)) == Factorial(n)
  {
    if k == n {
      CombDiagonal(n);
    } else if k > 0 {
      CombIsBinomial(n - 1, k - 1);
      CombIsBinomial(n - 1, k);
      PascalInFactorials(k, n - k, Comb(n - 1, k - 1), Comb(n - 1, k), Factorial(k - 1), Factorial(n - k - 1), Factorial(n - 1));
    }
  }

  lemma PascalInFactorials(k: int, d: int, a: int, b: int, fk: int, fd: int, f: int)
    requires a * (fk * (d * fd)) == f
    requires b * ((k * fk) * fd) == f
    ensures (a + b) * ((k * fk) * (d * fd)) == (k + d) * f
  {
    var u := fk * fd;
    assert fk * (d * fd) == d * u && (k * fk) * fd == k * u;
    assert (k * fk) * (d * fd) == k * (d * u) == d * (k * u);
    assert a * (k * (d * u)) == k * (a * (d * u));
    assert b * (d * (k * u)) == d * (b * (k * u));
  }

  // ── The recurrence ──────────────────────────────────────────────────────

  /** A series read at any position: zero before its start. */
  function At(f: seq<real>, i: int): real {
    if 0 <= i < |f| then f[i] else 0.0
  }

  function Sign(k: nat): real {
    if k % 2 == 1 then 1.0 else -1.0
  }

  /** The first m terms of the feedback sum with the coefficients of row n. */
  function Feedback(f: seq<real>, n: nat, m: nat, q: real, t: int): real {
    if m == 0 then 0.0
    else Feedback(f, n, m - 1, q, t) + Term(f, n, m, q, t)
  }

  /** One feedback term: the k-th coefficient of row n against the output k bars back. */
  function Term(f: seq<real>, n: nat, k: nat, q: real, t: int): real {
    Contribution(Sign(k), Comb(n, k), Pow(q, k), At(f, t - k))
  }

  function Contribution(sign: real, binom: nat, xp: real, pv: real): real {
    sign * binom as real * xp * pv
  }

  /** f solves the n-pole recurrence for input xs. */
  ghost predicate Recurs(f: seq<real>, xs: seq<real>, n: nat, alpha: real) {
    && |f| == |xs|
    && forall t :: 0 <= t < |f| ==> f[t] == Times(Pow(alpha, n), xs[t]) + Feedback(f, n, n, 1.0 - alpha, t)
  }

  lemma {:induction false} FeedbackReadsThePast(f: seq<real>, g: seq<real>, n: nat, m: nat, q: real, t: int)
    requires forall i :: i < t ==> At(f, i) == At(g, i)
    ensures Feedback(f, n, m, q, t) == Feedback(g, n, m, q, t)
  {
    if m > 0 {
      FeedbackReadsThePast(f, g, n, m - 1, q, t);
      assert At(f, t - m) == At(g, t - m);
    }
  }

  lemma {:induction false} RecurrenceIsDetermined(f: seq<real>, g: seq<real>, xs: seq<real>, n: nat, alpha: real, t: nat)
    requires Recurs(f, xs, n, alpha) && Recurs(g, xs, n, alpha)
    requires t <= |xs|
    ensures f[..t] == g[..t]
  {
    if t > 0 {
      RecurrenceIsDetermined(f, g, xs, n, alpha, t - 1);
      assert forall i :: 0 <= i < t - 1 ==> f[i] == f[..t - 1][i] && g[i] == g[..t - 1][i];
      FeedbackReadsThePast(f, g, n, n, 1.0 - alpha, t - 1);
      assert f[t - 1] == g[t - 1];
      assert f[..t] == f[..t - 1] + [f[t - 1]] && g[..t] == g[..t - 1] + [g[t - 1]];
    }
  }

  // ── The cascade ─────────────────────────────────────────────────────────

  /** One exponential average started from zero: y[t] = alpha x[t] + (1 - alpha) y[t-1]. */
  function OnePole(xs: seq<real>, alpha: real): (ys: seq<real>)
    ensures |ys| == |xs|
  {
    if xs == [] then []
    else
      var ys := OnePole(xs[..|xs| - 1], alpha);
      ys + [Average(alpha, xs[|xs| - 1], At(ys, |xs| - 2))]
  }

  function Average(alpha: real, x: real, y: real): real {
    alpha * x + (1.0 - alpha) * y
  }

  lemma AverageSplit(alpha: real, x: real, y: real)
    ensures Average(alpha, x, y) == Times(alpha, x) + Times(1.0 - alpha, y)
  {}

  function Cascade(xs: seq<real>, n: nat, alpha: real): (ys: seq<real>)
    ensures |ys| == |xs|
  {
    if n == 0 then xs else OnePole(Cascade(xs, n - 1, alpha), alpha)
  }

  lemma {:induction false} OnePoleAt(xs: seq<real>, alpha: real, t: nat)
    requires t < |xs|
    ensures OnePole(xs, alpha)[t] == Average(alpha, xs[t], At(OnePole(xs, alpha), t - 1))
    decreases |xs|
  {
    var front := xs[..|xs| - 1];
    var ys := OnePole(front, alpha);
    if t < |xs| - 1 {
      OnePoleAt(front, alpha, t);
      assert At(ys, t - 1) == At(OnePole(xs, alpha), t - 1);
    }
  }

  /** The n-fold difference (1 - q S)^n f at t, where S shifts by one bar. */
  function Diff(f: seq<real>, n: nat, q: real, t: int): real {
    if n == 0 then At(f, t) else Diff(f, n - 1, q, t) - Times(q, Diff(f, n - 1, q, t - 1))
  }

  lemma {:induction false} OneAverageUndone(xs: seq<real>, alpha: real, t: int)
    requires t < |xs|
    ensures At(OnePole(xs, alpha), t) - Times(1.0 - alpha, At(OnePole(xs, alpha), t - 1)) == Times(alpha, At(xs, t))
  {
    hide Times, Average, OnePole;
    if t >= 0 {
      OnePoleAt(xs, alpha, t);
      AverageSplit(alpha, xs[t], At(OnePole(xs, alpha), t - 1));
    } else {
      TimesMinus(alpha, 0.0, 0.0, 0.0);
      TimesMinus(1.0 - alpha, 0.0, 0.0, 0.0);
    }
  }

  lemma {:induction false} DiffOfOnePole(ys: seq<real>, alpha: real, m: nat, t: int)
    requires t < |ys|
    ensures Diff(OnePole(ys, alpha), m + 1, 1.0 - alpha, t) == Times(alpha, Diff(ys, m, 1.0 - alpha, t))
    decreases m
  {
    var zs := OnePole(ys, alpha);
    var q := 1.0 - alpha;
    if m == 0 {
      OneAverageUndone(ys, alpha, t);
      hide Times;
    } else {
      DiffOfOnePole(ys, alpha, m - 1, t);
      DiffOfOnePole(ys, alpha, m - 1, t - 1);
      TimesSwap(q, alpha, Diff(ys, m - 1, q, t - 1));
      TimesMinus(alpha, Diff(ys, m, q, t), Diff(ys, m - 1, q, t), Times(q, Diff(ys, m - 1, q, t - 1)));
      hide Times;
    }
  }

  lemma {:induction false} CascadeUndone(xs: seq<real>, n: nat, alpha: real, t: int)
    requires t < |xs|
    ensures Diff(Cascade(xs, n, alpha), n, 1.0 - alpha, t) == Times(Pow(alpha, n), At(xs, t))
  {
    hide Times, OnePole;
    PowUnfold(alpha, n, At(xs, t));
    if n > 0 {
      CascadeUndone(xs, n - 1, alpha, t);
      DiffOfOnePole(Cascade(xs, n - 1, alpha), alpha, n - 1, t);
      TimesSwap(alpha, Pow(alpha, n - 1), At(xs, t));
    }
  }

  lemma PowUnfold(a: real, n: nat, x: real)
    ensures n == 0 ==> Times(Pow(a, n), x) == x
    ensures n > 0 ==> Pow(a, n) == Times(a, Pow(a, n - 1))
  {}

  /** Pascal's identity on one coefficient of the sum. */
  lemma TermNextRow(f: seq<real>, n: nat, k: nat, q: real, t: int)
    ensures Term(f, n + 1, k + 1, q, t) == Term(f, n, k + 1, q, t) - Times(q, Term(f, n, k, q, t - 1))
  {
    hide Times, Contribution;
    var s, c0, c1, p, y := Sign(k), Comb(n, k), Comb(n, k + 1), Pow(q, k), At(f, t - 1 - k);
    assert Sign(k + 1) == -s && Pow(q, k + 1) == Times(q, p);
    NextRowContribution(s, c0, c1, p, q, y);
  }

  lemma NextRowContribution(s: real, c0: nat, c1: nat, p: real, q: real, y: real)
    ensures Contribution(-s, c0 + c1, Times(q, p), y)
         == Contribution(-s, c1, Times(q, p), y) - Times(q, Contribution(s, c0, p, y))
  {
    NextRowProduct(s, c0 as real, c1 as real, p, q, y);
  }

  lemma NextRowProduct(s: real, c0: real, c1: real, p: real, q: real, y: real)
    ensures -s * (c0 + c1) * (q * p) * y == -s * c1 * (q * p) * y - q * (s * c0 * p * y)
  {
    var a := s * (q * p) * y;
    assert -s * (c0 + c1) * (q * p) * y == -((c0 + c1) * a);
    assert (c0 + c1) * a == c0 * a + c1 * a;
    assert -s * c1 * (q * p) * y == -(c1 * a);
    assert q * (s * c0 * p * y) == c0 * a;
  }

  /** What the first m coefficients of row n leave of the output at t. */
  function Residue(f: seq<real>, n: nat, m: nat, q: real, t: int): real {
    At(f, t) - Feedback(f, n, m, q, t)
  }

  lemma ResidueUnfold(f: seq<real>, n: nat, m: nat, q: real, t: int)
    ensures Residue(f, n, m + 1, q, t) == Residue(f, n, m, q, t) - Term(f, n, m + 1, q, t)
  {
    hide Term;
  }

  lemma ResidueStart(f: seq<real>, n: nat, q: real, t: int)
    ensures Residue(f, n, 0, q, t) == At(f, t)
    ensures Term(f, n, 0, q, t) == -At(f, t)
  {
    assert Pow(q, 0) == 1.0 && Comb(n, 0) == 1;
  }

  /** Pascal's identity on partial sums: one more difference is the next row of the table. */
  lemma {:induction false} ResidueNextRow(f: seq<real>, n: nat, m: nat, q: real, t: int)
    ensures Residue(f, n + 1, m + 1, q, t) == Residue(f, n, m + 1, q, t) - Times(q, Residue(f, n, m, q, t - 1))
  {
    TermNextRow(f, n, m, q, t);
    ResidueUnfold(f, n + 1, m, q, t);
    ResidueUnfold(f, n, m, q, t);
    if m == 0 {
      ResidueStart(f, n, q, t);
      ResidueStart(f, n + 1, q, t);
      ResidueStart(f, n, q, t - 1);
      TimesMinus(q, 0.0, At(f, t - 1), At(f, t - 1));
      TimesMinus(q, Term(f, n, 0, q, t - 1), 0.0, At(f, t - 1));
    } else {
      ResidueNextRow(f, n, m - 1, q, t);
      ResidueUnfold(f, n, m - 1, q, t - 1);
      TimesMinus(q, Residue(f, n, m, q, t - 1), Residue(f, n, m - 1, q, t - 1), Term(f, n, m, q, t - 1));
    }
    hide *;
  }

  /** The n-fold difference spelled out with binomial coefficients. */
  lemma {:induction false} DiffIsBinomial(f: seq<real>, n: nat, q: real, t: int)
    ensures Diff(f, n, q, t) == Residue(f, n, n, q, t)
  {
    hide Times, Residue, Term;
    if n == 0 {
      ResidueStart(f, 0, q, t);
    } else {
      DiffIsBinomial(f, n - 1, q, t);
      DiffIsBinomial(f, n - 1, q, t - 1);
      ResidueNextRow(f, n - 1, n - 1, q, t);
      ResidueUnfold(f, n - 1, n - 1, q, t);
      NoTermAboveRow(f, n - 1, q, t);
    }
  }

  lemma NoTermAboveRow(f: seq<real>, n: nat, q: real, t: int)
    ensures Term(f, n, n + 1, q, t) == 0.0
  {
    CombAboveRow(n, n + 1);
  }

  /** n one-pole averages in a row solve the n-pole recurrence. */
  lemma {:induction false} CascadeRecurs(xs: seq<real>, n: nat, alpha: real)
    ensures Recurs(Cascade(xs, n, alpha), xs, n, alpha)
  {
    var ys := Cascade(xs, n, alpha);
    forall t | 0 <= t < |ys|
      ensures ys[t] == Times(Pow(alpha, n), xs[t]) + Feedback(ys, n, n, 1.0 - alpha, t)
    {
      hide Times;
      CascadeUndone(xs, n, alpha, t);
      DiffIsBinomial(ys, n, 1.0 - alpha, t);
    }
  }

  /** The recurrence and the cascade are the same filter. */
  lemma {:induction false} RecurrenceIsCascade(f: seq<real>, xs: seq<real>, n: nat, alpha: real)
    ensures Recurs(f, xs, n, alpha) <==> f == Cascade(xs, n, alpha)
  {
    CascadeRecurs(xs, n, alpha);
    if Recurs(f, xs, n, alpha) {
      RecurrenceIsDetermined(f, Cascade(xs, n, alpha), xs, n, alpha, |xs|);
      assert f == f[..|xs|];
    }
  }

  /** Every bar so far is its own share plus the feedback of the bars before it. */
  ghost predicate Solves(f: seq<real>, xs: seq<real>, poles: nat, aPow: real, x: real) {
    |f| <= |xs| && forall i :: 0 <= i < |f| ==> f[i] == Times(aPow, xs[i]) + Feedback(f, poles, poles, x, i)
  }

  lemma NothingSolves(xs: seq<real>, poles: nat, aPow: real, x: real)
    ensures Solves([], xs, poles, aPow, x)
  {}

  lemma SolutionIsCascade(f: seq<real>, xs: seq<real>, poles: nat, alpha: real)
    requires Solves(f, xs, poles, Pow(alpha, poles), 1.0 - alpha) && |f| == |xs|
    ensures f == Cascade(xs, poles, alpha)
  {
    hide Times, Contribution;
    RecurrenceIsCascade(f, xs, poles, alpha);
  }

  lemma SolutionExtends(past: seq<real>, val: real, xs: seq<real>, poles: nat, aPow: real, x: real)
    requires Solves(past, xs, poles, aPow, x) && |past| < |xs|
    requires val == Times(aPow, xs[|past|]) + Feedback(past, poles, poles, x, |past|)
    ensures Solves(past + [val], xs, poles, aPow, x)
  {
    var f := past + [val];
    assert forall i :: i < |past| ==> At(past, i) == At(f, i);
    forall i | 0 <= i < |f|
      ensures f[i] == Times(aPow, xs[i]) + Feedback(f, poles, poles, x, i)
    {
      FeedbackReadsThePast(past, f, poles, poles, x, i);
    }
  }

  /** The filter as the program runs it: coefficient tables, then one bar at a time. */
  method Pole(series: seq<Sample>, poles: nat, alpha: real) returns (f: array<real>)
    ensures f[..] == Cascade(Values(series), poles, alpha)
  {
    hide Times, Contribution, Solves, Comb, Pow;
    var n, xs, x := |series|, Values(series), 1.0 - alpha;
    var aPow := Pow(alpha, poles);
    var binom := seq(poles + 1, k requires 0 <= k <= poles => Comb(poles, k));
    var xp := seq(poles + 1, k requires 0 <= k <= poles => Pow(x, k));
    f := new real[n](_ => 0.0);
    NothingSolves(xs, poles, aPow, x);
    var t := 0;
    while t < n
      invariant 0 <= t <= n
      invariant Solves(f[..t], xs, poles, aPow, x)
    {
      var val := Scaled(aPow, series[t]);
      ghost var past := f[..t];
      var k := 1;
      while k < poles + 1
        invariant 1 <= k <= poles + 1 && f[..t] == past
        invariant val == Times(aPow, xs[t]) + Feedback(past, poles, k - 1, x, t)
      {
        var pv := if t - k >= 0 then f[t - k] else 0.0;
        var sign := if k % 2 == 1 then 1.0 else -1.0;
        val := val + Contribution(sign, binom[k], xp[k], pv);
        k := k + 1;
      }
      f[t] := val;
      assert f[..t] == past && f[..t + 1] == past + [val];
      SolutionExtends(past, val, xs, poles, aPow, x);
      t := t + 1;
    }
    assert f[..t] == f[..];
    SolutionIsCascade(f[..], xs, poles, alpha);
  }

  /** The new bar's own share of the output; a missing bar has none. */
  function Scaled(a: real, s: Sample): (r: real)
    ensures r == Times(a, Value(s))
  {
    match s
    case NaN => 0.0
    case Num(v) => a * v
  }
}
