/**
 The daily notional cap: with any number of workers, and the resolvers beside
 them, the buys of a bot that are reserved or done on a UTC day never exceed its
 cap. The reservation checks the sum and inserts in one step; what has to be shown
 is that no row ever comes back into the sum.
 */
module TradeCap {
  import opened Basics
  import opened TradeStore
  import opened TradeProtocol
  import opened TradeEffects
  import opened TradeOnce
  import opened TradeTiming

  function Day(t: nat): nat {
    t / DAY
  }

  /** A real buy's share of a bot's exposure on a day. */
  function Exposure(t: Trade, bot: nat, day: nat): real {
    if t.key.bot == bot && t.side == Buy && !t.simulated && Day(t.createdAt) == day && Reserving(t.status) && t.requested.Some?
    then t.requested.value else 0.0
  }

  function TotalExposure(trades: seq<Trade>, bot: nat, day: nat): real {
    if trades == [] then 0.0
    else TotalExposure(trades[..|trades| - 1], bot, day) + Exposure(trades[|trades| - 1], bot, day)
  }

  ghost predicate Priced(t: Trade) {
    t.requested.Some? ==> t.requested.value >= 0.0
  }

  ghost predicate RowsPriced(s: State) {
    forall i :: 0 <= i < |s.trades| ==> Priced(s.trades[i]) && s.trades[i].createdAt <= s.now
  }

  ghost predicate PhasesPriced(s: State) {
    forall w :: 0 <= w < |s.workers| && s.workers[w].Ready? ==> WellSized(s.workers[w].side, s.workers[w].requested)
  }

  // ── Sums ────────────────────────────────────────────────────────────────

  lemma ExposureAppended(trades: seq<Trade>, t: Trade, bot: nat, day: nat)
    ensures TotalExposure(trades + [t], bot, day) == TotalExposure(trades, bot, day) + Exposure(t, bot, day)
  {
    assert (trades + [t])[..|trades|] == trades;
  }

  lemma {:induction false} ExposureRewritten(trades: seq<Trade>, i: nat, t: Trade, bot: nat, day: nat)
    requires i < |trades|
    ensures TotalExposure(trades[i := t], bot, day) == TotalExposure(trades, bot, day) - Exposure(trades[i], bot, day) + Exposure(t, bot, day)
  {
    var n := |trades| - 1;
    if i == n {
      assert trades[i := t][..n] == trades[..n];
    } else {
      ExposureRewritten(trades[..n], i, t, bot, day);
      assert trades[i := t][..n] == trades[..n][i := t];
    }
  }

  lemma SameDay(created: nat, now: nat)
    requires created <= now && Day(created) == Day(now)
    ensures created >= DayStart(now)
  {}

  /** The reservation's own sum covers the exposure of its day; simulated rows only add to it. */
  lemma {:induction false} SumCoversExposure(trades: seq<Trade>, bot: nat, now: nat)
    requires forall i :: 0 <= i < |trades| ==> Priced(trades[i]) && trades[i].createdAt <= now
    ensures TotalExposure(trades, bot, Day(now)) <= DaySum(trades, bot, DayStart(now))
  {
    if trades != [] {
      var t := trades[|trades| - 1];
      SumCoversExposure(trades[..|trades| - 1], bot, now);
      assert Priced(t);
      if Day(t.createdAt) == Day(now) {
        SameDay(t.createdAt, now);
      }
      hide DayStart, Day;
      assert Exposure(t, bot, Day(now)) <= Weight(t, bot, DayStart(now));
    }
  }

  // ── Steps ───────────────────────────────────────────────────────────────

  lemma WorkPriced(c: Config, s: State, p: Phase, t: WorkerStep)
    requires CanWork(c, s, p, t)
    ensures var q := Work(c, s, p, t).1; q.Ready? ==> WellSized(q.side, q.requested)
  {}

  lemma PhasesPricedKept(c: Config, s: State, t: Step)
    requires Can(c, s, t) && PhasesPriced(s)
    ensures PhasesPriced(Do(c, s, t))
  {
    OthersStay(c, s, t);
    if t.Worker? {
      WorkPriced(c, s, s.workers[t.w], t.step);
    }
    hide Do, Can, Work;
  }

  lemma RowsPricedKept(c: Config, s: State, t: Step)
    requires Can(c, s, t) && PhasesPriced(s) && RowsPriced(s)
    ensures RowsPriced(Do(c, s, t))
  {
    TradesAfter(c, s, t);
    NowAdvances(c, s, t);
    if t.Worker? {
      WorkEffectFacts(c, s, s.workers[t.w], t.step);
      AppendedPriced(c, s, s.workers[t.w], t.step);
    }
    assert Effect(c, s, t).Append? ==> t.Worker? && Effect(c, s, t) == WorkEffect(c, s, s.workers[t.w], t.step);
    hide Do, Can, CanWork, Effect, WorkEffect;
  }

  lemma AppendedPriced(c: Config, s: State, p: Phase, t: WorkerStep)
    requires CanWork(c, s, p, t) && (p.Ready? ==> WellSized(p.side, p.requested))
    ensures WorkEffect(c, s, p, t).Append? ==> Priced(WorkEffect(c, s, p, t).row)
  {}

  ghost predicate CapHolds(s: State, bot: nat, cap: real) {
    forall day :: TotalExposure(s.trades, bot, day) <= cap
  }

  /** A new row fits under the cap, whichever kind it is. */
  lemma AppendKeepsCap(c: Config, s: State, p: Phase, t: WorkerStep, bot: nat, cap: real, day: nat)
    requires CanWork(c, s, p, t) && WorkEffect(c, s, p, t).Append?
    requires RowsPriced(s) && CapHolds(s, bot, cap) && LimitsOf(c, bot).dailyCap == Some(cap)
    ensures TotalExposure(s.trades + [WorkEffect(c, s, p, t).row], bot, day) <= cap
  {
    var row := WorkEffect(c, s, p, t).row;
    ExposureAppended(s.trades, row, bot, day);
    WorkEffectFacts(c, s, p, t);
    if Exposure(row, bot, day) != 0.0 {
      assert p.side == Buy && Reserve(s.trades, p.key, t.cid, Buy, p.requested, LimitsOf(c, p.key.bot), s.now).Reserved?;
      SumCoversExposure(s.trades, bot, s.now);
    }
  }

  lemma CapKept(c: Config, s: State, t: Step, bot: nat, cap: real)
    requires Can(c, s, t) && TimingRule(c) && TimingInv(c, s) && RowsPriced(s)
    requires LimitsOf(c, bot).dailyCap == Some(cap) && CapHolds(s, bot, cap)
    ensures CapHolds(Do(c, s, t), bot, cap)
  {
    TradesAfter(c, s, t);
    var e := Effect(c, s, t);
    if e.Rewrite? {
      RewritesStuck(c, s, t);
      assert Priced(s.trades[e.id]);
    }
    assert e.Append? ==> t.Worker? && e == WorkEffect(c, s, s.workers[t.w], t.step);
    assert t.Worker? ==> CanWork(c, s, s.workers[t.w], t.step);
    hide Do, Can, CanWork, Effect, WorkEffect, RowsPriced, TimingInv, LimitsOf;
    forall day
      ensures TotalExposure(Applied(s.trades, e), bot, day) <= cap
    {
      match e
      case Keep =>
      case Rewrite(id, status) => ExposureRewritten(s.trades, id, s.trades[id].(status := status), bot, day);
      case Append(row) => AppendKeepsCap(c, s, s.workers[t.w], t.step, bot, cap, day);
    }
  }

  // ── Over whole runs ─────────────────────────────────────────────────────

  lemma {:induction false} PricedAlways(c: Config, r: Run, n: nat)
    requires IsRun(c, r) && n < |r.states|
    ensures RowsPriced(r.states[n]) && PhasesPriced(r.states[n])
  {
    if n > 0 {
      PricedAlways(c, r, n - 1);
      StepAt(c, r, n - 1);
      hide Do, Can, Connected, RowsPriced, PhasesPriced;
      PhasesPricedKept(c, r.states[n - 1], r.steps[n - 1]);
      RowsPricedKept(c, r.states[n - 1], r.steps[n - 1]);
    }
  }

  /** Under the timing rule, no bot's real buys of a day exceed its daily cap, in any state of any run. */
  lemma {:induction false} DailyCapHolds(c: Config, r: Run, n: nat, bot: nat, cap: real)
    requires IsRun(c, r) && n < |r.states| && TimingRule(c)
    requires LimitsOf(c, bot).dailyCap == Some(cap) && cap >= 0.0
    ensures CapHolds(r.states[n], bot, cap)
  {
    if n > 0 {
      DailyCapHolds(c, r, n - 1, bot, cap);
      PricedAlways(c, r, n - 1);
      TimingInvAlways(c, r, n - 1);
      StepAt(c, r, n - 1);
      hide Do, Can, Connected, RowsPriced, PhasesPriced, TimingInv, CapHolds;
      CapKept(c, r.states[n - 1], r.steps[n - 1], bot, cap);
    }
  }
}
