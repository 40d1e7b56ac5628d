/**
 The most a bot can use on a day with W workers, exactly: as many orders as fit
 under its cap, and W - 1 more. No run exceeds it and some run reaches it, without a
 crash or an error; so the cap holds in all runs exactly with one worker.
 */
module ExecCapReached {
  import opened Basics
  import opened ExecQueue
  import opened ExecService
  import opened ExecClaims
  import opened ExecOrders
  import opened ExecCaps
  import opened ExecScenario

  // ── Usage comes in whole orders ─────────────────────────────────────────

  ghost predicate RowsFixed(c: Config, s: State) {
    forall i :: 0 <= i < |s.orders| ==> s.orders[i].notional == FixedOf(c, s.orders[i].bot)
  }

  lemma RowsFixedKept(c: Config, s: State, t: Step)
    requires Can(c, s, t) && PhasesLinked(c, s) && RowsFixed(c, s)
    ensures RowsFixed(c, Do(c, s, t))
  {
    RowsAppendOnly(c, s, t);
    if t.WriteNoop? || t.WriteRejected? || t.WriteFilled? {
      assert PhaseLinked(c, s, s.workers[t.w]);
    }
  }

  lemma {:induction false} RowsFixedAlways(c: Config, r: Run, n: nat)
    requires IsRun(c, r) && n < |r.states|
    ensures RowsFixed(c, r.states[n])
  {
    if n > 0 {
      RowsFixedAlways(c, r, n - 1);
      ClaimInvAlways(c, r, n - 1);
      StepAt(c, r, n - 1);
      hide Do, Can, Connected, RowsFixed;
      RowsFixedKept(c, r.states[n - 1], r.steps[n - 1]);
    }
  }

  lemma {:induction false} UsedInWholes(c: Config, orders: seq<Order>, bot: nat, day: nat) returns (k: nat)
    requires forall i :: 0 <= i < |orders| ==> orders[i].notional == FixedOf(c, orders[i].bot)
    ensures Used(orders, bot, day) == Units(k, FixedOf(c, bot))
    decreases |orders|
  {
    if orders == [] {
      k := 0;
    } else {
      k := UsedInWholes(c, orders[..|orders| - 1], bot, day);
      if Share(orders[|orders| - 1], bot, day) != 0.0 {
        k := k + 1;
      }
    }
  }

  // ── The bound ───────────────────────────────────────────────────────────

  /** How many orders fit under the cap. */
  function Fitting(p: Policy): (n: nat)
    requires ValidPolicy(p)
    ensures n >= 1 && Units(n, p.fixed) <= p.dailyCap < Units(n + 1, p.fixed)
  {
    var q := p.dailyCap / p.fixed;
    FloorOrders(q, p.dailyCap, p.fixed);
    q.Floor
  }

  lemma FloorOrders(q: real, x: real, f: real)
    requires x >= f > 0.0 && q == x / f
    ensures q.Floor >= 1 && Units(q.Floor, f) <= x < Units(q.Floor + 1, f)
  {
    assert q * f == x;
    assert (q - 1.0) * f == x - f;
    assert q >= 1.0;
    FloorBetween(q.Floor, q, f, q * f);
  }

  lemma FloorBetween(n: nat, q: real, f: real, x: real)
    requires f > 0.0 && n as real <= q < n as real + 1.0 && x == q * f
    ensures Units(n, f) <= x < Units(n + 1, f)
  {
    UnitsIsProduct(n, f);
    Between(n as real, q, f, Units(n, f), x);
  }

  lemma Between(n: real, q: real, f: real, low: real, x: real)
    requires f > 0.0 && n <= q < n + 1.0 && low == n * f && x == q * f
    ensures low <= x < low + f
  {
    Stretch(q - n, f, x - low);
    Stretch(n + 1.0 - q, f, low + f - x);
  }

  /** A product with a positive factor has the sign of the other. */
  lemma Stretch(d: real, f: real, e: real)
    requires f > 0.0 && d >= 0.0 && e == d * f
    ensures e >= 0.0 && (d > 0.0 ==> e > 0.0)
  {}

  /** The most a bot can use on a day. */
  function Most(p: Policy, workers: nat): real
    requires ValidPolicy(p) && workers > 0
  {
    Units(Fitting(p) + workers - 1, p.fixed)
  }

  lemma UnitsOrdered(j: nat, k: nat, f: real)
    requires f > 0.0
    ensures j <= k ==> Units(j, f) <= Units(k, f)
    ensures j < k ==> Units(j, f) < Units(k, f)
  {
    if j < k {
      UnitsMonotone(j, k - 1, f);
    }
  }

  lemma {:induction false} UnitsPlus(j: nat, k: nat, f: real)
    ensures Units(j + k, f) == Units(j, f) + Units(k, f)
  {
    if k > 0 {
      UnitsPlus(j, k - 1, f);
    }
  }

  /** No run exceeds it. */
  lemma NeverMore(c: Config, r: Run, n: nat, bot: nat, day: nat)
    requires IsRun(c, r) && n < |r.states| && ValidConfig(c) && bot in c.policies
    ensures |r.states[0].workers| > 0 && ValidPolicy(c.policies[bot])
    ensures Used(r.states[n].orders, bot, day) <= Most(c.policies[bot], |r.states[0].workers|)
  {
    var p, workers := c.policies[bot], |r.states[0].workers|;
    CapAlways(c, r, n, bot);
    RowsFixedAlways(c, r, n);
    var k := UsedInWholes(c, r.states[n].orders, bot, day);
    hide Used, IsRun, ExecCaps.Capped, Dated, RowsFixed;
    var fit := Fitting(p);
    if k > fit + workers - 1 {
      UnitsOrdered(fit + workers, k, p.fixed);
      UnitsPlus(fit + 1, workers - 1, p.fixed);
      assert false;
    }
    UnitsOrdered(k, fit + workers - 1, p.fixed);
  }

  // ── A run that reaches it ───────────────────────────────────────────────

  /** The gate as it must be for anything to be sent. */
  predicate CanArm(c: Config) {
    c.envArmed && c.testnet && c.environmentsAgree
  }

  /** Everyone idle, and so many orders of the bot written today. */
  ghost predicate Filled(c: Config, s: State, bot: nat, workers: nat, k: nat) {
    && Trading(c, s, bot) && |s.workers| == workers && (forall w :: 0 <= w < workers ==> s.workers[w] == Idle)
    && Used(s.orders, bot, Today(s)) == Units(k, FixedOf(c, bot))
  }

  lemma NewSignalUnwritten(c: Config, s: State, bot: nat)
    requires Trading(c, s, bot)
    ensures !HasOrder(s.orders, Sig(|s.items|))
  {}

  /** One order after the other, as long as they fit. */
  lemma FillMany(c: Config, s: State, bot: nat, workers: nat, k: nat) returns (ts: seq<Step>, t: State)
    requires ValidConfig(c) && Filled(c, s, bot, workers, 0) && workers > 0
    requires Units(k, FixedOf(c, bot)) <= c.policies[bot].dailyCap
    ensures Reaches(c, s, ts, t) && Filled(c, t, bot, workers, k) && Today(t) == Today(s)
    decreases k
  {
    ts, t := [], s;
    if k > 0 {
      UnitsOrdered(k - 1, k, FixedOf(c, bot));
      ts, t := FillMany(c, s, bot, workers, k - 1);
      var us, next := OneMore(c, t, bot, workers, k - 1);
      hide Reaches, Filled;
      ReachBoth(c, s, ts, t, us, next);
      ts, t := ts + us, next;
    }
  }

  lemma OneMore(c: Config, s: State, bot: nat, workers: nat, k: nat) returns (ts: seq<Step>, t: State)
    requires ValidConfig(c) && Filled(c, s, bot, workers, k) && workers > 0
    requires Units(k + 1, FixedOf(c, bot)) <= c.policies[bot].dailyCap
    ensures Reaches(c, s, ts, t) && Filled(c, t, bot, workers, k + 1) && Today(t) == Today(s)
  {
    ts := ToAnswer(c, s, 0, bot);
    var m := Answering(c, s, 0, bot);
    NewSignalUnwritten(c, s, bot);
    var us := ToWritten(c, m, 0);
    t := Written(m, 0);
    WrittenTrades(c, m, 0, bot);
    UsedAppended(s.orders, RowOf(m, m.workers[0]), bot, Today(s));
    assert Filled(c, t, bot, workers, k + 1);
    hide Reaches, Written, Answering, Filled, Used, Trading;
    ReachBoth(c, s, ts, m, us, t);
    ts := ts + us;
  }

  /** A worker past the caps with an order no row has yet. */
  ghost predicate Loose(c: Config, s: State, bot: nat, w: nat) {
    && w < |s.workers| && s.workers[w].Answered? && s.workers[w].ctx.bot == bot && s.workers[w].notional == FixedOf(c, bot)
    && s.workers[w].ctx.signal < |s.items| && !HasOrder(s.orders, Sig(s.workers[w].ctx.signal))
  }

  predicate Apart(p: Phase, q: Phase) {
    p.Answered? && q.Answered? ==> p.ctx.signal != q.ctx.signal
  }

  /** The first so many workers hold loose orders of different signals, the others are idle. */
  ghost predicate Holding(c: Config, s: State, bot: nat, workers: nat, held: nat) {
    && Trading(c, s, bot) && |s.workers| == workers && held <= workers
    && (forall w :: 0 <= w < held ==> Loose(c, s, bot, w))
    && (forall v, w :: 0 <= v < w < held ==> Apart(s.workers[v], s.workers[w]))
    && (forall w :: held <= w < workers ==> s.workers[w] == Idle)
  }

  lemma HoldOneMore(c: Config, s: State, bot: nat, workers: nat, held: nat)
    requires Holding(c, s, bot, workers, held) && held < workers && Trading(c, Answering(c, s, held, bot), bot)
    ensures Holding(c, Answering(c, s, held, bot), bot, workers, held + 1)
  {
    var t := Answering(c, s, held, bot);
    NewSignalUnwritten(c, s, bot);
    hide Trading, HasOrder;
    forall w | 0 <= w < held + 1
      ensures Loose(c, t, bot, w)
    {
      assert w < held ==> Loose(c, s, bot, w);
    }
    forall v, w | 0 <= v < w < held + 1
      ensures Apart(t.workers[v], t.workers[w])
    {
      assert Loose(c, s, bot, v);
      assert w < held ==> Apart(s.workers[v], s.workers[w]);
    }
  }

  /** All workers pass the caps before any of them writes. */
  lemma HoldMany(c: Config, s: State, bot: nat, workers: nat, held: nat) returns (ts: seq<Step>, t: State)
    requires ValidConfig(c) && Holding(c, s, bot, workers, 0) && held <= workers
    requires Used(s.orders, bot, Today(s)) + FixedOf(c, bot) <= c.policies[bot].dailyCap
    ensures Reaches(c, s, ts, t) && Holding(c, t, bot, workers, held) && t.orders == s.orders && Today(t) == Today(s)
    decreases held
  {
    ts, t := [], s;
    if held > 0 {
      ts, t := HoldMany(c, s, bot, workers, held - 1);
      var us := ToAnswer(c, t, held - 1, bot);
      HoldOneMore(c, t, bot, workers, held - 1);
      var next := Answering(c, t, held - 1, bot);
      assert next.orders == t.orders && Today(next) == Today(t);
      hide Reaches, Answering, Holding, Used, Trading;
      ReachBoth(c, s, ts, t, us, next);
      ts, t := ts + us, next;
    }
  }

  lemma WriteOne(c: Config, s: State, bot: nat, workers: nat, held: nat)
    requires Loose(c, s, bot, held) && Holding(c, s, bot, workers, held + 1)
    ensures Holding(c, Written(s, held), bot, workers, held)
    ensures Used(Written(s, held).orders, bot, Today(s)) == Used(s.orders, bot, Today(s)) + FixedOf(c, bot)
    ensures Today(Written(s, held)) == Today(s)
  {
    var t := Written(s, held);
    WrittenTrades(c, s, held, bot);
    UsedAppended(s.orders, RowOf(s, s.workers[held]), bot, Today(s));
    hide Trading, Used;
    forall w | 0 <= w < held
      ensures Loose(c, t, bot, w)
    {
      assert Loose(c, s, bot, w) && Apart(s.workers[w], s.workers[held]);
    }
    assert forall v, w :: 0 <= v < w < held ==> Apart(s.workers[v], s.workers[w]);
  }

  /** Then all of them write. */
  lemma WriteMany(c: Config, s: State, bot: nat, workers: nat, held: nat) returns (ts: seq<Step>, t: State)
    requires Holding(c, s, bot, workers, held)
    ensures Reaches(c, s, ts, t)
    ensures Used(t.orders, bot, Today(s)) == Used(s.orders, bot, Today(s)) + Units(held, FixedOf(c, bot))
    decreases held
  {
    ts, t := [], s;
    if held > 0 {
      assert Loose(c, s, bot, held - 1);
      var us := ToWritten(c, s, held - 1);
      var next := Written(s, held - 1);
      WriteOne(c, s, bot, workers, held - 1);
      hide Reaches, Written, Holding, Used, Today;
      ts, t := WriteMany(c, next, bot, workers, held - 1);
      ReachBoth(c, s, us, next, ts, t);
      ts := us + ts;
    }
  }

  function Start(bot: nat, workers: nat): State {
    State(0, map[], [], {bot}, Gate(true, false), [], seq(workers, _ => Idle), [], [])
  }

  lemma StartIs(c: Config, bot: nat, workers: nat)
    requires CanArm(c) && bot in c.policies && workers > 0
    ensures Init(Start(bot, workers)) && Filled(c, Start(bot, workers), bot, workers, 0)
    ensures Today(Start(bot, workers)) == 0
  {}

  lemma FilledHolds(c: Config, s: State, bot: nat, workers: nat, k: nat)
    requires Filled(c, s, bot, workers, k)
    ensures Holding(c, s, bot, workers, 0) && Used(s.orders, bot, Today(s)) == Units(k, FixedOf(c, bot))
  {}

  /** From a day with one order less than fit: all workers pass the caps, then all write. */
  lemma Overshoots(c: Config, s: State, bot: nat, workers: nat, k: nat) returns (ts: seq<Step>, t: State)
    requires ValidConfig(c) && Filled(c, s, bot, workers, k) && Units(k + 1, FixedOf(c, bot)) <= c.policies[bot].dailyCap
    ensures Reaches(c, s, ts, t) && Used(t.orders, bot, Today(s)) == Units(k + workers, FixedOf(c, bot))
  {
    FilledHolds(c, s, bot, workers, k);
    hide Reaches, Holding, Filled, Used, Today, Trading;
    var us, u := HoldMany(c, s, bot, workers, workers);
    var vs, v := WriteMany(c, u, bot, workers, workers);
    UnitsPlus(k, workers, FixedOf(c, bot));
    ReachBoth(c, s, us, u, vs, v);
    ts, t := us + vs, v;
  }

  /** Some run reaches it. */
  lemma Reached(c: Config, bot: nat, workers: nat) returns (r: Run)
    requires ValidConfig(c) && CanArm(c) && bot in c.policies && workers > 0
    ensures r.states != [] && IsRun(c, r) && |r.states[0].workers| == workers && ValidPolicy(c.policies[bot])
    ensures Used(Last(r).orders, bot, 0) == Most(c.policies[bot], workers)
  {
    var p, s := c.policies[bot], Start(bot, workers);
    StartIs(c, bot, workers);
    r := Run([s], []);
    assert IsRun(c, r);
    var fit := Fitting(p);
    UnitsOrdered(fit - 1, fit, p.fixed);
    hide Reaches, IsRun, Filled, Used, Fitting, Start, Init, Today;
    var ts, t := FillMany(c, s, bot, workers, fit - 1);
    var us, u := Overshoots(c, t, bot, workers, fit - 1);
    r := GrowAll(c, r, ts, t);
    r := GrowAll(c, r, us, u);
  }

  // ── Exactly one worker ──────────────────────────────────────────────────

  /** The bot's cap is exceeded on some day of some run with so many workers. */
  ghost predicate CapBroken(c: Config, bot: nat, workers: nat)
    requires bot in c.policies
  {
    exists r: Run, n, day :: IsRun(c, r) && |r.states[0].workers| == workers && 0 <= n < |r.states| && Breaks(c, r.states[n], bot, day)
  }

  ghost predicate Breaks(c: Config, s: State, bot: nat, day: nat)
    requires bot in c.policies
  {
    Used(s.orders, bot, day) > c.policies[bot].dailyCap
  }

  /** With a gate that can open at all, the daily cap holds in every run exactly with one worker. */
  lemma CapBrokenIff(c: Config, bot: nat, workers: nat)
    requires ValidConfig(c) && CanArm(c) && bot in c.policies && workers > 0
    ensures CapBroken(c, bot, workers) <==> workers >= 2
  {
    if workers >= 2 {
      var p := c.policies[bot];
      var r := Reached(c, bot, workers);
      UnitsOrdered(Fitting(p) + 1, Fitting(p) + workers - 1, p.fixed);
      hide Used, IsRun;
      assert Breaks(c, r.states[|r.states| - 1], bot, 0);
    } else if CapBroken(c, bot, workers) {
      var r: Run, n: int, day: nat :| IsRun(c, r) && |r.states[0].workers| == workers && 0 <= n < |r.states| && Breaks(c, r.states[n], bot, day);
      hide IsRun, Used;
      OneWorkerKeepsTheCap(c, r, n, bot, day);
      assert false;
    }
  }

  /** If the fixed order divides the cap, the overshoot is W - 1 whole orders. */
  lemma OvershootIs(p: Policy, n: nat, workers: nat)
    requires ValidPolicy(p) && workers > 0 && p.dailyCap == Units(n, p.fixed)
    ensures Most(p, workers) == p.dailyCap + Units(workers - 1, p.fixed)
  {
    var fit := Fitting(p);
    UnitsOrdered(n, fit, p.fixed);
    UnitsOrdered(fit, n, p.fixed);
    UnitsOrdered(n, fit + 1, p.fixed);
    UnitsOrdered(fit + 1, n, p.fixed);
    assert n == fit;
    UnitsPlus(fit, workers - 1, p.fixed);
  }
}
