/**
 What a trade of the pipeline presupposes of its bot, spelled out column by column:
 behind every order and every simulated fill there is an earlier moment at which its
 worker read the bot's row, and that row let it through.
 */
module TradeGates {
  import opened Basics
  import opened TradeStore
  import opened TradeProtocol
  import opened TradeEffects
  import opened TradeOnce

  /** A worker with a message of this signal reads the bot's row, and finds it usable. */
  ghost predicate ReadsRow(s: State, t: Step, key: Key, side: Side, approved: bool, bot: Bot) {
    && t.Worker? && t.step.LoadBot? && t.w < |s.workers|
    && s.workers[t.w].Received? && s.workers[t.w].message == Signal(key, side, approved)
    && key.bot in s.bots && s.bots[key.bot] == bot && bot.active && bot.credential
  }

  /** Some step before n was such a reading. */
  ghost predicate RowRead(r: Run, n: nat, key: Key, side: Side, approved: bool, bot: Bot) {
    exists m :: 0 <= m < n && m < |r.steps| && m < |r.states| && ReadsRow(r.states[m], r.steps[m], key, side, approved, bot)
  }

  /** The switch is on; an exit is opted in, a buy has both caps configured. */
  ghost predicate LetsThrough(c: Config, key: Key, side: Side, bot: Bot) {
    && bot.tradingEnabled
    && (side == Sell ==> bot.sellEnabled)
    && (side == Buy ==> key.bot in c.limits && c.limits[key.bot].maxOrder.Some? && c.limits[key.bot].dailyCap.Some?)
  }

  ghost predicate PhaseGated(c: Config, r: Run, n: nat, p: Phase) {
    && (p.Loaded? || p.Fresh? || p.Clear? || p.Ready? ==> RowRead(r, n, p.key, p.side, p.approved, p.bot))
    && (p.Ready? ==> LetsThrough(c, p.key, p.side, p.bot))
  }

  /** A simulated fill is of a simulated bot; a real row is of a live one, and of an approved message. */
  ghost predicate RowGated(c: Config, r: Run, n: nat, t: Trade) {
    exists approved, bot :: RowRead(r, n, t.key, t.side, approved, bot) && LetsThrough(c, t.key, t.side, bot)
      && bot.live == !t.simulated && (bot.live ==> approved)
  }

  ghost predicate Gated(c: Config, r: Run, n: nat)
    requires n < |r.states|
  {
    && (forall w :: 0 <= w < |r.states[n].workers| ==> PhaseGated(c, r, n, r.states[n].workers[w]))
    && (forall i :: 0 <= i < |r.states[n].trades| ==> RowGated(c, r, n, r.states[n].trades[i]))
  }

  // ── Steps ───────────────────────────────────────────────────────────────

  lemma ReadLater(r: Run, n: nat, key: Key, side: Side, approved: bool, bot: Bot)
    requires RowRead(r, n, key, side, approved, bot)
    ensures RowRead(r, n + 1, key, side, approved, bot)
  {
    var m :| 0 <= m < n && m < |r.steps| && m < |r.states| && ReadsRow(r.states[m], r.steps[m], key, side, approved, bot);
  }

  lemma PhaseLater(c: Config, r: Run, n: nat, p: Phase)
    requires PhaseGated(c, r, n, p)
    ensures PhaseGated(c, r, n + 1, p)
  {
    if p.Loaded? || p.Fresh? || p.Clear? || p.Ready? {
      ReadLater(r, n, p.key, p.side, p.approved, p.bot);
    }
    hide RowRead;
  }

  lemma RowLater(c: Config, r: Run, n: nat, t: Trade, t': Trade)
    requires RowGated(c, r, n, t) && t' == t.(status := t'.status)
    ensures RowGated(c, r, n + 1, t')
  {
    hide RowRead, LetsThrough;
    var approved, bot :| RowRead(r, n, t.key, t.side, approved, bot) && LetsThrough(c, t.key, t.side, bot)
      && bot.live == !t.simulated && (bot.live ==> approved);
    ReadLater(r, n, t.key, t.side, approved, bot);
  }

  /** What a worker's own step does to what it knows of the bot. */
  lemma WorkGates(c: Config, s: State, p: Phase, t: WorkerStep)
    requires CanWork(c, s, p, t)
    ensures var q := Work(c, s, p, t).1;
      && (q.Loaded? ==> t.LoadBot? && p.Received? && p.message == Signal(q.key, q.side, q.approved)
                        && q.key.bot in s.bots && s.bots[q.key.bot] == q.bot && q.bot.active && q.bot.credential)
      && (q.Fresh? ==> p.Loaded? && q.key == p.key && q.side == p.side && q.approved == p.approved && q.bot == p.bot)
      && (q.Clear? ==> p.Fresh? && q.key == p.key && q.side == p.side && q.approved == p.approved && q.bot == p.bot)
      && (q.Ready? ==> p.Clear? && q.key == p.key && q.side == p.side && q.approved == p.approved && q.bot == p.bot
                       && LetsThrough(c, q.key, q.side, q.bot))
  {
    hide HasKey, HasCid, Reserves, BotBlocked, InTime, TradesNext, QueueNext, CallsNext, TravellingNext;
  }

  /** Which rows a worker appends, told by its bot. */
  lemma AppendGates(c: Config, s: State, p: Phase, t: WorkerStep)
    requires CanWork(c, s, p, t) && WorkEffect(c, s, p, t).Append?
    ensures var row := WorkEffect(c, s, p, t).row;
      p.Ready? && row.key == p.key && row.side == p.side && p.bot.live == !row.simulated && (p.bot.live ==> p.approved)
  {
    hide HasKey, HasCid, Reserves;
  }

  lemma ActorGated(c: Config, r: Run, n: nat)
    requires Connected(c, r) && n < |r.steps| && r.steps[n].Worker? && Can(c, r.states[n], r.steps[n])
    requires PhaseGated(c, r, n, r.states[n].workers[r.steps[n].w])
    ensures PhaseGated(c, r, n + 1, Work(c, r.states[n], r.states[n].workers[r.steps[n].w], r.steps[n].step).1)
  {
    var s, w, step := r.states[n], r.steps[n].w, r.steps[n].step;
    var p := s.workers[w];
    WorkGates(c, s, p, step);
    var q := Work(c, s, p, step).1;
    hide Work, Can, CanWork, Connected, LetsThrough;
    if q.Loaded? {
      assert ReadsRow(s, r.steps[n], q.key, q.side, q.approved, q.bot);
    } else if q.Fresh? || q.Clear? || q.Ready? {
      ReadLater(r, n, p.key, p.side, p.approved, p.bot);
    }
  }

  lemma AppendedGated(c: Config, r: Run, n: nat)
    requires Connected(c, r) && n < |r.steps| && Can(c, r.states[n], r.steps[n])
    requires r.steps[n].Worker? && PhaseGated(c, r, n, r.states[n].workers[r.steps[n].w])
    requires WorkEffect(c, r.states[n], r.states[n].workers[r.steps[n].w], r.steps[n].step).Append?
    ensures RowGated(c, r, n + 1, WorkEffect(c, r.states[n], r.states[n].workers[r.steps[n].w], r.steps[n].step).row)
  {
    var p := r.states[n].workers[r.steps[n].w];
    AppendGates(c, r.states[n], p, r.steps[n].step);
    hide WorkEffect, Can, CanWork, Connected;
    ReadLater(r, n, p.key, p.side, p.approved, p.bot);
    hide RowRead, LetsThrough;
  }

  lemma GatedKept(c: Config, r: Run, n: nat)
    requires Connected(c, r) && n < |r.steps| && n + 1 < |r.states| && Gated(c, r, n)
    ensures Gated(c, r, n + 1)
  {
    StepAt(c, r, n);
    var s, t, s' := r.states[n], r.steps[n], r.states[n + 1];
    OthersStay(c, s, t);
    TradesAfter(c, s, t);
    RowsKept(c, s, t);
    var e := Effect(c, s, t);
    assert e.Append? ==> t.Worker? && e == WorkEffect(c, s, s.workers[t.w], t.step);
    assert t.Worker? ==> t.w < |s.workers|;
    hide Do, Can, Work, CanWork, WorkEffect, Effect, Connected, PhaseGated, RowGated;
    forall w | 0 <= w < |s'.workers|
      ensures PhaseGated(c, r, n + 1, s'.workers[w])
    {
      if t.Worker? && t.w == w {
        ActorGated(c, r, n);
      } else {
        PhaseLater(c, r, n, s.workers[w]);
      }
    }
    forall i | 0 <= i < |s'.trades|
      ensures RowGated(c, r, n + 1, s'.trades[i])
    {
      if i < |s.trades| {
        RowLater(c, r, n, s.trades[i], s'.trades[i]);
      } else {
        AppendedGated(c, r, n);
      }
    }
  }

  // ── Over whole runs ─────────────────────────────────────────────────────

  lemma {:induction false} GatedAlways(c: Config, r: Run, n: nat)
    requires IsRun(c, r) && n < |r.states|
    ensures Gated(c, r, n)
  {
    assert |r.states| == |r.steps| + 1;
    if n == 0 {
      assert Init(r.states[0]);
    } else {
      hide Gated, Connected;
      GatedAlways(c, r, n - 1);
      GatedKept(c, r, n - 1);
    }
  }

  /**
   Behind every trade row, real or simulated, a worker read the bot's row in an earlier
   state: active, with a credential, switched on; opted in to exits for a sell, with
   both caps for a buy; simulated for a simulated fill, live and approved for a real row.
   */
  lemma TradesWereAllowed(c: Config, r: Run, n: nat, i: nat) returns (m: nat)
    requires IsRun(c, r) && n < |r.states| && i < |r.states[n].trades|
    ensures m < n && m < |r.steps| && r.steps[m].Worker? && r.steps[m].step.LoadBot? && r.steps[m].w < |r.states[m].workers|
    ensures var s, p, t := r.states[m], r.states[m].workers[r.steps[m].w], r.states[n].trades[i];
      && p.Received? && p.message.Signal? && p.message.key == t.key && p.message.side == t.side
      && t.key.bot in s.bots
      && s.bots[t.key.bot].active && s.bots[t.key.bot].credential && s.bots[t.key.bot].tradingEnabled
      && (t.side == Sell ==> s.bots[t.key.bot].sellEnabled)
      && (t.side == Buy ==> t.key.bot in c.limits && c.limits[t.key.bot].maxOrder.Some? && c.limits[t.key.bot].dailyCap.Some?)
      && s.bots[t.key.bot].live == !t.simulated && (!t.simulated ==> p.message.approved)
  {
    GatedAlways(c, r, n);
    var t := r.states[n].trades[i];
    assert RowGated(c, r, n, t);
    hide IsRun, Gated;
    var approved, bot :| RowRead(r, n, t.key, t.side, approved, bot) && LetsThrough(c, t.key, t.side, bot)
      && bot.live == !t.simulated && (bot.live ==> approved);
    m :| 0 <= m < n && m < |r.steps| && m < |r.states| && ReadsRow(r.states[m], r.steps[m], t.key, t.side, approved, bot);
  }

  /** The same behind every call of createOrder. */
  lemma CallsWereAllowed(c: Config, r: Run, n: nat, k: nat) returns (m: nat)
    requires IsRun(c, r) && n < |r.states| && k < |r.states[n].calls|
    ensures m < n && m < |r.steps| && r.steps[m].Worker? && r.steps[m].step.LoadBot? && r.steps[m].w < |r.states[m].workers|
    ensures var s, p, call := r.states[m], r.states[m].workers[r.steps[m].w], r.states[n].calls[k];
      && p.Received? && p.message == Signal(call.key, call.side, true)
      && call.key.bot in s.bots
      && s.bots[call.key.bot].active && s.bots[call.key.bot].credential && s.bots[call.key.bot].tradingEnabled
      && s.bots[call.key.bot].live
      && (call.side == Sell ==> s.bots[call.key.bot].sellEnabled)
      && (call.side == Buy ==>
            call.key.bot in c.limits && c.limits[call.key.bot].maxOrder.Some? && c.limits[call.key.bot].dailyCap.Some?)
  {
    OnceInvAlways(c, r, n);
    assert CallFits(r.states[n].trades, r.states[n].calls[k]);
    hide IsRun, OnceInv;
    m := TradesWereAllowed(c, r, n, r.states[n].calls[k].trade);
  }
}
