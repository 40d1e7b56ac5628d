/**
 One worker at a time: in every state of every run, crashes and restarts included,
 a bot has at most one unknown trade, and no order is sent for a bot while another
 of its trades is unknown. Resolvers may run beside the worker; no timing rule is
 needed.
 */
module TradeUnknown {
  import opened Basics
  import opened TradeStore
  import opened TradeProtocol
  import opened TradeEffects
  import opened TradeOnce

  ghost predicate UnknownOf(trades: seq<Trade>, i: nat, bot: nat) {
    i < |trades| && trades[i].status == Unknown && trades[i].key.bot == bot
  }

  ghost predicate OneUnknown(trades: seq<Trade>) {
    forall i: nat, j: nat, bot :: UnknownOf(trades, i, bot) && UnknownOf(trades, j, bot) ==> i == j
  }

  /** Past the check for unresolved trades, the bot has no unknown trade but the worker's own. */
  ghost predicate ClearOfOthers(trades: seq<Trade>, p: Phase) {
    && (p.Clear? || p.Ready? ==> forall i: nat :: !UnknownOf(trades, i, p.key.bot))
    && (Owns(p) && p.id < |trades| ==> forall i: nat :: UnknownOf(trades, i, trades[p.id].key.bot) ==> i == p.id)
  }

  ghost predicate UnknownInv(s: State) {
    && OneUnknown(s.trades)
    && forall w :: 0 <= w < |s.workers| ==> ClearOfOthers(s.trades, s.workers[w])
  }

  // ── Steps ───────────────────────────────────────────────────────────────

  /** A worker gets past the check, or to a row, only from a phase that was clear. */
  lemma WorkClears(c: Config, s: State, p: Phase, t: WorkerStep)
    requires CanWork(c, s, p, t)
    ensures var q := Work(c, s, p, t).1;
      && (q.Clear? ==> t.CheckUnresolved? && !BotBlocked(s, q.key.bot) && !WorkEffect(c, s, p, t).Append? && !WorkEffect(c, s, p, t).Rewrite?)
      && (q.Ready? ==> p.Clear? && p.key == q.key && WorkEffect(c, s, p, t).Keep?)
      && (Owns(q) && t.ReserveTrade? ==> p.Ready? && WorkEffect(c, s, p, t).Append?)
  {}

  lemma NotBlocked(s: State, bot: nat)
    requires !BotBlocked(s, bot)
    ensures forall i: nat :: !UnknownOf(s.trades, i, bot)
  {
    forall i: nat
      ensures !UnknownOf(s.trades, i, bot)
    {
      assert i < |s.trades| ==> !Blocking(s.trades[i], bot, s.now - THRESHOLD);
    }
  }

  /** Resolvers and the world make no trade unknown. */
  lemma OthersMakeNoUnknown(c: Config, s: State, t: Step, i: nat, bot: nat)
    requires Can(c, s, t) && !t.Worker? && UnknownOf(Do(c, s, t).trades, i, bot)
    ensures UnknownOf(s.trades, i, bot)
  {
    TradesAfter(c, s, t);
    assert Effect(c, s, t).Rewrite? ==> Terminal(Effect(c, s, t).status);
    assert !Effect(c, s, t).Append?;
    hide Do, Can, Effect;
  }

  /** A worker makes only the row it owns unknown. */
  lemma WorkerMakesOwnUnknown(c: Config, s: State, p: Phase, t: WorkerStep, i: nat, bot: nat)
    requires CanWork(c, s, p, t) && UnknownOf(Applied(s.trades, WorkEffect(c, s, p, t)), i, bot)
    ensures UnknownOf(s.trades, i, bot) || (Owns(p) && i == p.id && i < |s.trades| && s.trades[i].key.bot == bot)
  {
    WorkEffectFacts(c, s, p, t);
    hide WorkEffect, CanWork;
  }

  lemma OneUnknownKept(c: Config, s: State, t: Step)
    requires Can(c, s, t) && PhasesFit(s) && UnknownInv(s)
    ensures OneUnknown(Do(c, s, t).trades)
  {
    TradesAfter(c, s, t);
    var trades' := Do(c, s, t).trades;
    if t.Worker? {
      assert ClearOfOthers(s.trades, s.workers[t.w]) && PhaseFits(s.trades, s.workers[t.w]);
      assert trades' == Applied(s.trades, WorkEffect(c, s, s.workers[t.w], t.step));
      assert CanWork(c, s, s.workers[t.w], t.step);
    }
    hide Do, Can, CanWork, Effect, WorkEffect, Applied;
    forall i: nat, j: nat, bot | UnknownOf(trades', i, bot) && UnknownOf(trades', j, bot)
      ensures i == j
    {
      if t.Worker? {
        WorkerMakesOwnUnknown(c, s, s.workers[t.w], t.step, i, bot);
        WorkerMakesOwnUnknown(c, s, s.workers[t.w], t.step, j, bot);
      } else {
        OthersMakeNoUnknown(c, s, t, i, bot);
        OthersMakeNoUnknown(c, s, t, j, bot);
      }
    }
  }

  lemma ActorStaysClear(c: Config, s: State, p: Phase, t: WorkerStep)
    requires CanWork(c, s, p, t) && PhaseFits(s.trades, p) && ClearOfOthers(s.trades, p)
    ensures ClearOfOthers(Applied(s.trades, WorkEffect(c, s, p, t)), Work(c, s, p, t).1)
  {
    var q := Work(c, s, p, t).1;
    var trades' := Applied(s.trades, WorkEffect(c, s, p, t));
    WorkClears(c, s, p, t);
    WorkCarries(c, s, p, t);
    WorkEffectFacts(c, s, p, t);
    if q.Clear? {
      NotBlocked(s, q.key.bot);
    }
    hide Work, WorkEffect, CanWork, BotBlocked, HasKey, HasCid;
    if Owns(q) && q.id < |trades'| {
      var bot := trades'[q.id].key.bot;
      forall i: nat | UnknownOf(trades', i, bot)
        ensures i == q.id
      {
        WorkerMakesOwnUnknown(c, s, p, t, i, bot);
      }
    }
  }

  lemma OthersStayClear(c: Config, s: State, t: Step, p: Phase)
    requires Can(c, s, t) && !t.Worker? && PhaseFits(s.trades, p) && ClearOfOthers(s.trades, p)
    ensures ClearOfOthers(Do(c, s, t).trades, p)
  {
    RowsKept(c, s, t);
    hide Do, Can;
    var trades' := Do(c, s, t).trades;
    forall i: nat, bot | UnknownOf(trades', i, bot)
      ensures UnknownOf(s.trades, i, bot)
    {
      OthersMakeNoUnknown(c, s, t, i, bot);
    }
  }

  lemma UnknownInvKept(c: Config, s: State, t: Step)
    requires Can(c, s, t) && PhasesFit(s) && UnknownInv(s) && |s.workers| == 1
    ensures UnknownInv(Do(c, s, t)) && |Do(c, s, t).workers| == 1
  {
    OneUnknownKept(c, s, t);
    OthersStay(c, s, t);
    TradesAfter(c, s, t);
    assert PhaseFits(s.trades, s.workers[0]) && ClearOfOthers(s.trades, s.workers[0]);
    if t.Worker? {
      ActorStaysClear(c, s, s.workers[0], t.step);
      assert Effect(c, s, t) == WorkEffect(c, s, s.workers[0], t.step);
    } else {
      OthersStayClear(c, s, t, s.workers[0]);
    }
    hide Do, Can, Effect, WorkEffect, Work, Applied, ClearOfOthers, OneUnknown;
  }

  // ── Over whole runs ─────────────────────────────────────────────────────

  lemma {:induction false} UnknownInvAlways(c: Config, r: Run, n: nat)
    requires IsRun(c, r) && n < |r.states| && |r.states[0].workers| == 1
    ensures UnknownInv(r.states[n]) && |r.states[n].workers| == 1
  {
    if n > 0 {
      UnknownInvAlways(c, r, n - 1);
      OnceInvAlways(c, r, n - 1);
      StepAt(c, r, n - 1);
      hide Do, Can, Connected, UnknownInv;
      UnknownInvKept(c, r.states[n - 1], r.steps[n - 1]);
    }
  }

  /** With one worker, a bot never has two unknown trades. */
  lemma AtMostOneUnknown(c: Config, r: Run, n: nat, i: nat, j: nat, bot: nat)
    requires IsRun(c, r) && n < |r.states| && |r.states[0].workers| == 1
    requires UnknownOf(r.states[n].trades, i, bot) && UnknownOf(r.states[n].trades, j, bot)
    ensures i == j
  {
    UnknownInvAlways(c, r, n);
  }

  /** With one worker, createOrder is called for a bot only while no other trade of the bot is unknown. */
  lemma NoOrderBesideAnUnknown(c: Config, r: Run, n: nat, i: nat)
    requires IsRun(c, r) && n < |r.steps| && |r.states[0].workers| == 1
    requires r.steps[n].Worker? && r.steps[n].step.CreateOrder?
    ensures |r.states[n + 1].calls| == |r.states[n].calls| + 1
    ensures var call := r.states[n + 1].calls[|r.states[n].calls|];
      UnknownOf(r.states[n].trades, i, call.key.bot) ==> i == call.trade
  {
    StepAt(c, r, n);
    UnknownInvAlways(c, r, n);
    OnceInvAlways(c, r, n);
    CallsAfter(c, r.states[n], r.steps[n]);
    assert ClearOfOthers(r.states[n].trades, r.states[n].workers[0]) && PhaseFits(r.states[n].trades, r.states[n].workers[0]);
    assert r.states[n].workers[r.steps[n].w].Cleared?;
    hide Do, Can, Connected;
  }
}
