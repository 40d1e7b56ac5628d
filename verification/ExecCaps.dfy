/**
 The daily cap of the execution service. Reading the usage and writing the order
 row are separate statements, so W workers can overshoot, but by no more than
 W - 1 orders, on any day and across midnight.
 */
module ExecCaps {
  import opened Basics
  import opened ExecQueue
  import opened ExecService
  import opened ExecClaims
  import opened ExecOrders

  /** Caps passed, row not written yet. */
  predicate Undecided(p: Phase, bot: nat) {
    (p.Sized? || p.Answered?) && p.ctx.bot == bot
  }

  function InFlight(workers: seq<Phase>, bot: nat): (n: nat)
    ensures n <= |workers|
  {
    if workers == [] then 0
    else InFlight(workers[..|workers| - 1], bot) + One(Undecided(workers[|workers| - 1], bot))
  }

  lemma {:induction false} InFlightMoved(workers: seq<Phase>, w: nat, p: Phase, bot: nat)
    requires w < |workers|
    ensures InFlight(workers[w := p], bot) == InFlight(workers, bot) - One(Undecided(workers[w], bot)) + One(Undecided(p, bot))
  {
    var n := |workers| - 1;
    if w == n {
      assert workers[w := p][..n] == workers[..n];
    } else {
      InFlightMoved(workers[..n], w, p, bot);
      assert workers[w := p][..n] == workers[..n][w := p];
    }
  }

  /** n orders of the same notional. */
  function Units(n: nat, f: real): real {
    if n == 0 then 0.0 else f + Units(n - 1, f)
  }

  lemma {:induction false} UnitsIsProduct(n: nat, f: real)
    ensures Units(n, f) == n as real * f
  {
    if n > 0 {
      UnitsIsProduct(n - 1, f);
      OneMoreTimes((n - 1) as real, f);
      assert n as real == (n - 1) as real + 1.0;
    }
  }

  lemma OneMoreTimes(x: real, f: real)
    ensures (x + 1.0) * f == x * f + f
  {}

  lemma {:induction false} UnitsMonotone(m: nat, n: nat, f: real)
    requires m <= n && f >= 0.0
    ensures Units(m, f) <= Units(n, f)
  {
    if m < n {
      UnitsMonotone(m, n - 1, f);
    }
  }

  lemma UsedAppended(orders: seq<Order>, o: Order, bot: nat, day: nat)
    ensures Used(orders + [o], bot, day) == Used(orders, bot, day) + Share(o, bot, day)
  {
    assert (orders + [o])[..|orders|] == orders;
  }

  lemma {:induction false} NothingUsedYet(orders: seq<Order>, bot: nat, day: nat)
    requires forall i :: 0 <= i < |orders| ==> orders[i].day < day
    ensures Used(orders, bot, day) == 0.0
  {
    if orders != [] {
      NothingUsedYet(orders[..|orders| - 1], bot, day);
    }
  }

  ghost predicate Dated(s: State) {
    forall i :: 0 <= i < |s.orders| ==> s.orders[i].day <= Today(s)
  }

  /** What a bot may reach with this many workers. */
  function Ceiling(p: Policy, workers: nat): real
    requires workers > 0
  {
    p.dailyCap + Units(workers - 1, p.fixed)
  }

  ghost predicate Capped(c: Config, s: State, bot: nat)
    requires bot in c.policies
  {
    var p := c.policies[bot];
    && |s.workers| > 0
    && (forall d :: Used(s.orders, bot, d) <= Ceiling(p, |s.workers|))
    && Used(s.orders, bot, Today(s)) + Units(InFlight(s.workers, bot), p.fixed) <= Ceiling(p, |s.workers|)
  }

  // ── The four kinds of step ──────────────────────────────────────────────

  lemma TickKeepsCap(c: Config, s: State, t: Step, bot: nat)
    requires Can(c, s, t) && t.Tick? && ValidConfig(c) && bot in c.policies && Dated(s) && Capped(c, s, bot)
    ensures Capped(c, Do(c, s, t), bot)
  {
    var s' := Do(c, s, t);
    var p := c.policies[bot];
    assert Today(s) <= Today(s');
    if Today(s) < Today(s') {
      NothingUsedYet(s.orders, bot, Today(s'));
      UnitsMonotone(InFlight(s.workers, bot), |s.workers|, p.fixed);
    }
  }

  lemma CheckKeepsCap(c: Config, s: State, t: Step, bot: nat)
    requires Can(c, s, t) && t.CheckCaps? && ValidConfig(c) && bot in c.policies && Capped(c, s, bot)
    ensures Capped(c, Do(c, s, t), bot)
  {
    var w := t.w;
    var s' := Do(c, s, t);
    var p := c.policies[bot];
    var next := s'.workers[w];
    assert s'.workers == s.workers[w := next] && s'.orders == s.orders && s'.now == s.now;
    assert !Undecided(s.workers[w], bot);
    assert Undecided(next, bot) ==> Used(s.orders, bot, Today(s)) + p.fixed <= p.dailyCap;
    hide Do, Can;
    InFlightMoved(s.workers, w, next, bot);
    if Undecided(next, bot) {
      BusyElsewhere(s.workers, w, bot);
      UnitsMonotone(InFlight(s.workers, bot), |s.workers| - 1, p.fixed);
    }
  }

  /** A worker that is not in flight leaves at most the others. */
  lemma {:induction false} BusyElsewhere(workers: seq<Phase>, w: nat, bot: nat)
    requires w < |workers| && !Undecided(workers[w], bot)
    ensures InFlight(workers, bot) <= |workers| - 1
  {
    if w < |workers| - 1 {
      BusyElsewhere(workers[..|workers| - 1], w, bot);
    }
  }

  lemma WriteKeepsCap(c: Config, s: State, t: Step, bot: nat)
    requires Can(c, s, t) && (t.WriteNoop? || t.WriteRejected? || t.WriteFilled?)
    requires ValidConfig(c) && bot in c.policies && PhasesLinked(c, s) && Capped(c, s, bot)
    ensures Capped(c, Do(c, s, t), bot)
  {
    var s' := Do(c, s, t);
    var w := t.w;
    var p := s.workers[w];
    assert PhaseLinked(c, s, p);
    InFlightMoved(s.workers, w, Recorded(p.item), bot);
    assert s'.workers == s.workers[w := Recorded(p.item)];
    if s'.orders != s.orders {
      var o := s'.orders[|s.orders|];
      NewRowIsTheActors(c, s, t, |s.orders|);
      assert s'.orders == s.orders + [o];
      assert Undecided(p, bot) ==> p.notional == c.policies[bot].fixed;
      assert forall d :: Share(o, bot, d) == if Undecided(p, bot) && d == Today(s) then p.notional else 0.0;
      hide Do;
      forall d
        ensures Used(s'.orders, bot, d) == Used(s.orders, bot, d) + Share(o, bot, d)
      {
        UsedAppended(s.orders, o, bot, d);
      }
      UnitsMonotone(0, InFlight(s'.workers, bot), c.policies[bot].fixed);
    } else {
      UnitsMonotone(InFlight(s'.workers, bot), InFlight(s.workers, bot), c.policies[bot].fixed);
    }
  }

  lemma OtherStepsKeepCap(c: Config, s: State, t: Step, bot: nat)
    requires Can(c, s, t) && !t.Tick? && !t.CheckCaps? && !t.WriteNoop? && !t.WriteRejected? && !t.WriteFilled?
    requires ValidConfig(c) && bot in c.policies && Capped(c, s, bot)
    ensures Capped(c, Do(c, s, t), bot)
  {
    var s' := Do(c, s, t);
    OnlyTheActorMoves(c, s, t);
    assert s'.orders == s.orders && s'.now == s.now;
    match Actor(t)
    case None =>
    case Some(w) =>
      assert Undecided(s'.workers[w], bot) ==> Undecided(s.workers[w], bot);
      hide Do;
      InFlightMoved(s.workers, w, s'.workers[w], bot);
      UnitsMonotone(InFlight(s'.workers, bot), InFlight(s.workers, bot), c.policies[bot].fixed);
  }

  lemma DatedKept(c: Config, s: State, t: Step)
    requires Can(c, s, t) && Dated(s)
    ensures Dated(Do(c, s, t))
  {
    if t.Tick? {
      assert Today(s) <= Today(Do(c, s, t));
    }
  }

  lemma {:induction false} CapAlways(c: Config, r: Run, n: nat, bot: nat)
    requires IsRun(c, r) && n < |r.states| && ValidConfig(c) && bot in c.policies
    ensures |r.states[n].workers| == |r.states[0].workers|
    ensures Dated(r.states[n]) && Capped(c, r.states[n], bot)
  {
    if n == 0 {
      FirstCapped(c, r.states[0], bot);
    } else {
      CapAlways(c, r, n - 1, bot);
      ClaimInvAlways(c, r, n - 1);
      StepAt(c, r, n - 1);
      hide Do, Can, Connected, Capped, Dated, ClaimInv, ValidConfig;
      CapKept(c, r.states[n - 1], r.steps[n - 1], bot);
    }
  }

  lemma CapKept(c: Config, s: State, t: Step, bot: nat)
    requires Can(c, s, t) && ClaimInv(c, s) && ValidConfig(c) && bot in c.policies && Dated(s) && Capped(c, s, bot)
    ensures |Do(c, s, t).workers| == |s.workers| && Dated(Do(c, s, t)) && Capped(c, Do(c, s, t), bot)
  {
    OnlyTheActorMoves(c, s, t);
    DatedKept(c, s, t);
    hide Do, Capped, Dated;
    if t.Tick? {
      TickKeepsCap(c, s, t, bot);
    } else if t.CheckCaps? {
      CheckKeepsCap(c, s, t, bot);
    } else if t.WriteNoop? || t.WriteRejected? || t.WriteFilled? {
      WriteKeepsCap(c, s, t, bot);
    } else {
      OtherStepsKeepCap(c, s, t, bot);
    }
  }

  lemma {:induction false} NoneInFlight(workers: seq<Phase>, bot: nat)
    requires forall w :: 0 <= w < |workers| ==> workers[w].Idle?
    ensures InFlight(workers, bot) == 0
  {
    if workers != [] {
      NoneInFlight(workers[..|workers| - 1], bot);
    }
  }

  lemma FirstCapped(c: Config, s: State, bot: nat)
    requires Init(s) && ValidConfig(c) && bot in c.policies
    ensures Capped(c, s, bot) && Dated(s)
  {
    NoneInFlight(s.workers, bot);
    UnitsMonotone(0, |s.workers| - 1, c.policies[bot].fixed);
  }

  /** On every day, a bot's counted notional is within its cap plus one order for each further worker. */
  lemma DailyUsageBounded(c: Config, r: Run, n: nat, bot: nat, day: nat)
    requires IsRun(c, r) && n < |r.states| && ValidConfig(c) && bot in c.policies
    ensures |r.states[0].workers| > 0
    ensures Used(r.states[n].orders, bot, day)
         <= c.policies[bot].dailyCap + (|r.states[0].workers| - 1) as real * c.policies[bot].fixed
  {
    CapAlways(c, r, n, bot);
    UnitsIsProduct(|r.states[0].workers| - 1, c.policies[bot].fixed);
  }

  /** With one worker the cap is exact. */
  lemma OneWorkerKeepsTheCap(c: Config, r: Run, n: nat, bot: nat, day: nat)
    requires IsRun(c, r) && n < |r.states| && ValidConfig(c) && bot in c.policies && |r.states[0].workers| == 1
    ensures Used(r.states[n].orders, bot, day) <= c.policies[bot].dailyCap
  {
    CapAlways(c, r, n, bot);
  }
}
