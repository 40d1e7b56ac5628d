/**
 Settled statuses agree with the exchange. Assumptions, each a hypothesis here: the
 timing rule; an accepted order is visible by the threshold's age of its row; an
 auth error or a rejection means the request was not accepted.
 */
module TradeTruth {
  import opened Basics
  import opened TradeStore
  import opened TradeProtocol
  import opened TradeEffects
  import opened TradeOnce
  import opened TradeTiming

  predicate VisibleInTime(c: Config) {
    TimingRule(c) && c.lag <= Cutoff(c)
  }

  ghost predicate NeverSent(s: State, cid: nat) {
    cid !in s.travelling && cid !in s.placed
  }

  /** A request is travelling or placed, never both. */
  ghost predicate Apart(s: State) {
    forall cid :: cid in s.travelling ==> cid !in s.placed
  }

  ghost predicate PhaseHonest(s: State, p: Phase) {
    && (p.Holding? || p.Cleared? || p.Refused? ==> NeverSent(s, p.cid))
    && ((p.Answered? || p.Found?) && Terminal(p.report) ==> p.cid in s.placed && s.placed[p.cid].status == p.report)
  }

  ghost predicate ResolverHonest(s: State, p: Resolver) {
    p.Looked? && p.id < |s.trades| ==>
      var cid := s.trades[p.id].cid;
      match p.result
      case NotFound => cid !in s.placed
      case Order(report) => Terminal(report) ==> cid in s.placed && s.placed[cid].status == report
  }

  /** A settled row says what the exchange says, and nothing can arrive for it any more. */
  ghost predicate RowTruth(c: Config, s: State, i: nat)
    requires i < |s.trades|
  {
    var t := s.trades[i];
    Terminal(t.status) && !t.simulated ==>
      && (t.cid in s.placed ==> s.placed[t.cid].status == t.status)
      && (t.status == Filled ==> t.cid in s.placed)
      && (t.cid in s.travelling ==> t.createdAt + c.lag < s.now)
  }

  ghost predicate TruthInv(c: Config, s: State) {
    && Apart(s)
    && (forall w :: 0 <= w < |s.workers| ==> PhaseHonest(s, s.workers[w]))
    && (forall r :: 0 <= r < |s.resolvers| ==> ResolverHonest(s, s.resolvers[r]))
    && (forall i :: 0 <= i < |s.trades| ==> RowTruth(c, s, i))
  }

  ghost predicate Foundations(c: Config, s: State) {
    OnceInv(s) && TimingInv(c, s)
  }

  // ── How the exchange's side moves ───────────────────────────────────────

  /** Who can make a client order id known to the exchange: only its own worker, in createOrder. */
  lemma StaysUnknown(c: Config, s: State, t: Step, cid: nat)
    requires Can(c, s, t) && NeverSent(s, cid)
    ensures NeverSent(Do(c, s, t), cid) || (t.Worker? && t.step.CreateOrder? && s.workers[t.w].cid == cid)
  {
    ExchangeAfter(c, s, t);
    hide Do;
  }

  lemma FinalStays(c: Config, s: State, t: Step, cid: nat)
    requires Can(c, s, t) && Apart(s) && cid in s.placed && Terminal(s.placed[cid].status)
    ensures cid in Do(c, s, t).placed && Do(c, s, t).placed[cid] == s.placed[cid]
  {
    ExchangeAfter(c, s, t);
    if t.World? {
      HappenExchange(c, s, t.event);
      hide Happen;
    } else {
      hide Do;
    }
  }

  lemma HappenApart(c: Config, s: State, t: WorldStep)
    requires CanHappen(c, s, t) && Apart(s)
    ensures Apart(Happen(c, s, t))
  {}

  lemma ApartKept(c: Config, s: State, t: Step)
    requires Can(c, s, t) && Apart(s) && forall w :: 0 <= w < |s.workers| ==> PhaseHonest(s, s.workers[w])
    ensures Apart(Do(c, s, t))
  {
    if t.World? {
      HappenApart(c, s, t.event);
      hide Happen;
    } else {
      ExchangeAfter(c, s, t);
      if t.Worker? {
        assert PhaseHonest(s, s.workers[t.w]);
      }
      hide Do;
    }
  }

  // ── Workers ─────────────────────────────────────────────────────────────

  lemma OtherWorkerHonest(c: Config, s: State, t: Step, w: nat)
    requires Can(c, s, t) && Foundations(c, s) && Apart(s) && w < |s.workers| && PhaseHonest(s, s.workers[w])
    requires !(t.Worker? && t.w == w)
    ensures PhaseHonest(Do(c, s, t), s.workers[w])
  {
    var p := s.workers[w];
    assert PhaseFits(s.trades, p);
    if t.Worker? {
      assert PhaseFits(s.trades, s.workers[t.w]);
      assert t.step.CreateOrder? ==> s.workers[t.w].Cleared?;
    }
    if p.Holding? || p.Cleared? || p.Refused? {
      StaysUnknown(c, s, t, p.cid);
    } else if (p.Answered? || p.Found?) && Terminal(p.report) {
      FinalStays(c, s, t, p.cid);
    }
    hide Do, Can;
  }

  lemma ReserverHonest(c: Config, s: State, p: Phase, t: WorkerStep)
    requires CanWork(c, s, p, t) && t.ReserveTrade? && ExchangeFits(s) && CallsFit(s)
    ensures PhaseHonest(Work(c, s, p, t).0, Work(c, s, p, t).1)
  {
    if !t.rpcFailed && !HasKey(s.trades, p.key) && !HasCid(s.trades, t.cid) {
      NewIdIsUnknown(s, t.cid);
      hide ExchangeFits, CallsFit, HasKey, HasCid;
    }
  }

  lemma WorkHonest(c: Config, s: State, p: Phase, t: WorkerStep)
    requires CanWork(c, s, p, t) && PhaseHonest(s, p)
    requires ExchangeFits(s) && CallsFit(s)
    ensures PhaseHonest(Work(c, s, p, t).0, Work(c, s, p, t).1)
  {
    if t.ReserveTrade? {
      ReserverHonest(c, s, p, t);
    } else {
      OthersHonest(c, s, p, t);
    }
    hide Work, CanWork, PhaseHonest;
  }

  lemma OthersHonest(c: Config, s: State, p: Phase, t: WorkerStep)
    requires CanWork(c, s, p, t) && PhaseHonest(s, p) && !t.ReserveTrade?
    ensures PhaseHonest(Work(c, s, p, t).0, Work(c, s, p, t).1)
  {
    hide HasKey, HasCid, Reserve, BotBlocked, GatesOpen, InTime;
  }

  lemma CalledHasRow(s: State, cid: nat)
    requires CallsFit(s) && Called(s.calls, cid)
    ensures HasCid(s.trades, cid)
  {
    var k :| 0 <= k < |s.calls| && s.calls[k].cid == cid;
    assert CallFits(s.trades, s.calls[k]);
  }

  lemma NewIdIsUnknown(s: State, cid: nat)
    requires ExchangeFits(s) && CallsFit(s) && !HasCid(s.trades, cid)
    ensures NeverSent(s, cid)
  {
    if cid in s.placed {
      CalledHasRow(s, cid);
    }
  }

  lemma ActorHonest(c: Config, s: State, t: Step)
    requires Can(c, s, t) && t.Worker? && Foundations(c, s) && PhaseHonest(s, s.workers[t.w])
    ensures PhaseHonest(Do(c, s, t), Do(c, s, t).workers[t.w])
  {
    WorkHonest(c, s, s.workers[t.w], t.step);
    assert Do(c, s, t).travelling == Work(c, s, s.workers[t.w], t.step).0.travelling;
    assert Do(c, s, t).placed == Work(c, s, s.workers[t.w], t.step).0.placed;
    OthersStay(c, s, t);
    hide Do, Work, Can;
  }

  // ── Resolvers ───────────────────────────────────────────────────────────

  /** Nothing arrives any more for a row past the threshold. */
  lemma LateStaysAbsent(c: Config, s: State, t: Step, id: nat)
    requires Can(c, s, t) && c.lag <= Cutoff(c) && ExchangeFits(s) && Unique(s.trades)
    requires Late(c, s, id) && s.trades[id].cid !in s.placed
    ensures s.trades[id].cid !in Do(c, s, t).placed
  {
    ExchangeAfter(c, s, t);
    hide Do, Can, Called;
    var cid := s.trades[id].cid;
    if cid in s.travelling {
      var other := s.travelling[cid];
      assert s.trades[other].cid == cid;
      assert other == id;
    }
  }

  lemma OtherResolverHonest(c: Config, s: State, t: Step, p: Resolver)
    requires Can(c, s, t) && VisibleInTime(c) && OnceInv(s) && Apart(s) && ResolverHonest(s, p)
    requires Works(p) ==> Late(c, s, p.id)
    ensures ResolverHonest(Do(c, s, t), p)
  {
    if p.Looked? {
      RowsKept(c, s, t);
      if p.result.NotFound? {
        LateStaysAbsent(c, s, t, p.id);
      } else if Terminal(p.result.report) {
        FinalStays(c, s, t, s.trades[p.id].cid);
      }
      hide Do, Can, OnceInv, Apart;
    }
  }

  lemma ResolveHonest(c: Config, s: State, p: Resolver, t: ResolverStep)
    requires CanResolve(c, s, p, t) && c.lag <= Cutoff(c) && ResolverHonest(s, p)
    requires Works(p) ==> Late(c, s, p.id)
    ensures ResolverHonest(s, Resolve(c, s, p, t).1)
  {}

  lemma ResolverStaysHonest(c: Config, s: State, t: Step, r: nat)
    requires Can(c, s, t) && VisibleInTime(c) && Foundations(c, s) && TruthInv(c, s) && r < |s.resolvers|
    ensures r < |Do(c, s, t).resolvers| && ResolverHonest(Do(c, s, t), Do(c, s, t).resolvers[r])
  {
    OthersStay(c, s, t);
    var p := s.resolvers[r];
    assert ResolverHonest(s, p);
    if t.Resolving? && t.r == r {
      ResolveHonest(c, s, p, t.look);
      RowsKept(c, s, t);
      ExchangeAfter(c, s, t);
      hide Do, Can, Resolve;
    } else {
      OtherResolverHonest(c, s, t, p);
      hide Do, Can;
    }
  }

  // ── Rows ────────────────────────────────────────────────────────────────

  /** A final status fits the exchange's side of a row. */
  ghost predicate Truthful(c: Config, s: State, id: nat, status: TradeStatus) {
    && id < |s.trades|
    && var cid := s.trades[id].cid;
    && (cid in s.placed ==> s.placed[cid].status == status)
    && (status == Filled ==> cid in s.placed)
    && (cid in s.travelling ==> s.trades[id].createdAt + c.lag < s.now)
  }

  lemma WorkerWritesTruth(c: Config, s: State, p: Phase, t: WorkerStep)
    requires CanWork(c, s, p, t) && PhaseHonest(s, p) && PhaseFits(s.trades, p) && Apart(s)
    requires WorkEffect(c, s, p, t).Rewrite? && Terminal(WorkEffect(c, s, p, t).status)
    ensures Truthful(c, s, WorkEffect(c, s, p, t).id, WorkEffect(c, s, p, t).status)
  {
    hide HasKey, HasCid, Reserve, BotBlocked, ReportedBy;
  }

  lemma ResolverWritesTruth(c: Config, s: State, p: Resolver, t: ResolverStep)
    requires CanResolve(c, s, p, t) && ResolverHonest(s, p) && Apart(s) && VisibleInTime(c) && (Works(p) ==> Late(c, s, p.id))
    requires ResolveEffect(c, s, p, t).Rewrite? && Terminal(ResolveEffect(c, s, p, t).status)
    ensures Truthful(c, s, ResolveEffect(c, s, p, t).id, ResolveEffect(c, s, p, t).status)
  {}

  /** What a step writes as final is what the exchange holds. */
  lemma WrittenTruth(c: Config, s: State, t: Step)
    requires Can(c, s, t) && VisibleInTime(c) && Foundations(c, s) && TruthInv(c, s)
    requires Effect(c, s, t).Rewrite? && Terminal(Effect(c, s, t).status)
    ensures Truthful(c, s, Effect(c, s, t).id, Effect(c, s, t).status)
  {
    match t
    case Worker(w, step) =>
      assert PhaseHonest(s, s.workers[w]) && PhaseFits(s.trades, s.workers[w]);
      hide CanWork, WorkEffect, PhaseHonest, PhaseFits, Truthful, RowTruth;
      WorkerWritesTruth(c, s, s.workers[w], step);
    case Resolving(r, look) =>
      assert ResolverHonest(s, s.resolvers[r]);
      hide CanResolve, ResolveEffect, ResolverHonest, Truthful, RowTruth;
      ResolverWritesTruth(c, s, s.resolvers[r], look);
    case World(_) =>
  }

  lemma RewrittenRowTruth(c: Config, s: State, t: Step, i: nat)
    requires Can(c, s, t) && VisibleInTime(c) && Foundations(c, s) && TruthInv(c, s) && i < |s.trades|
    requires Effect(c, s, t).Rewrite? && Effect(c, s, t).id == i
    ensures i < |Do(c, s, t).trades| && RowTruth(c, Do(c, s, t), i)
  {
    TradesAfter(c, s, t);
    NowAdvances(c, s, t);
    ExchangeAfter(c, s, t);
    NotSending(c, s, t);
    if Terminal(Effect(c, s, t).status) {
      WrittenTruth(c, s, t);
    }
    hide Do, Can, Effect, Foundations;
  }

  /** A row settled before the step: nothing is placed or sent for it in the step. */
  lemma SettledUntouched(c: Config, s: State, t: Step, i: nat)
    requires Can(c, s, t) && VisibleInTime(c) && Foundations(c, s) && TruthInv(c, s) && i < |s.trades|
    requires Terminal(s.trades[i].status) && !s.trades[i].simulated
    ensures var cid := s.trades[i].cid;
      && (cid in Do(c, s, t).placed ==> cid in s.placed)
      && (cid in Do(c, s, t).travelling ==> cid in s.travelling)
  {
    ExchangeAfter(c, s, t);
    assert RowTruth(c, s, i);
    var cid := s.trades[i].cid;
    assert Unique(s.trades) && ExchangeFits(s);
    if t.Worker? && t.step.CreateOrder? {
      SenderIsPending(c, s, t);
    }
    hide Do, Can, Foundations, TruthInv, Called;
    if cid in s.travelling {
      assert s.trades[s.travelling[cid]].cid == cid;
      assert s.travelling[cid] == i;
    }
  }

  lemma OtherRowTruth(c: Config, s: State, t: Step, i: nat)
    requires Can(c, s, t) && VisibleInTime(c) && Foundations(c, s) && TruthInv(c, s) && i < |s.trades|
    requires !(Effect(c, s, t).Rewrite? && Effect(c, s, t).id == i)
    ensures i < |Do(c, s, t).trades| && RowTruth(c, Do(c, s, t), i)
  {
    TradesAfter(c, s, t);
    NowAdvances(c, s, t);
    var row := s.trades[i];
    assert RowTruth(c, s, i);
    if Terminal(row.status) && !row.simulated {
      SettledUntouched(c, s, t, i);
      PlacedStay(c, s, t);
      if row.cid in s.placed {
        FinalStays(c, s, t, row.cid);
      }
    }
    hide Do, Can, Effect, Foundations, TruthInv;
  }

  lemma PlacedStay(c: Config, s: State, t: Step)
    requires Can(c, s, t)
    ensures forall cid :: cid in s.placed ==> cid in Do(c, s, t).placed
  {
    ExchangeAfter(c, s, t);
    hide Do, Can;
  }

  lemma RowTruthKept(c: Config, s: State, t: Step, i: nat)
    requires Can(c, s, t) && VisibleInTime(c) && Foundations(c, s) && TruthInv(c, s) && i < |s.trades|
    ensures i < |Do(c, s, t).trades| && RowTruth(c, Do(c, s, t), i)
  {
    if Effect(c, s, t).Rewrite? && Effect(c, s, t).id == i {
      RewrittenRowTruth(c, s, t, i);
    } else {
      OtherRowTruth(c, s, t, i);
    }
    hide Do, Can, Effect, Foundations;
  }

  lemma NotSending(c: Config, s: State, t: Step)
    requires Can(c, s, t) && Effect(c, s, t).Rewrite?
    ensures !t.World? && !(t.Worker? && t.step.CreateOrder?)
  {}

  lemma SenderIsPending(c: Config, s: State, t: Step)
    requires Can(c, s, t) && TimingRule(c) && Foundations(c, s) && t.Worker? && t.step.CreateOrder?
    ensures var p := s.workers[t.w];
      p.id < |s.trades| && s.trades[p.id].cid == p.cid && s.trades[p.id].status == Pending
  {
    assert PhaseFits(s.trades, s.workers[t.w]);
  }

  lemma TruthInvKept(c: Config, s: State, t: Step)
    requires Can(c, s, t) && VisibleInTime(c) && Foundations(c, s) && TruthInv(c, s)
    ensures TruthInv(c, Do(c, s, t))
  {
    var s' := Do(c, s, t);
    ApartKept(c, s, t);
    OthersStay(c, s, t);
    TradesAfter(c, s, t);
    if t.Worker? {
      WorkEffectFacts(c, s, s.workers[t.w], t.step);
    }
    assert Effect(c, s, t).Append? ==> t.Worker? && Effect(c, s, t) == WorkEffect(c, s, s.workers[t.w], t.step);
    hide Do, Can, CanWork, Work, Resolve, Effect, WorkEffect, PhaseHonest, ResolverHonest, Foundations;
    forall w | 0 <= w < |s'.workers|
      ensures PhaseHonest(s', s'.workers[w])
    {
      if t.Worker? && t.w == w {
        ActorHonest(c, s, t);
      } else {
        OtherWorkerHonest(c, s, t, w);
      }
    }
    forall r | 0 <= r < |s'.resolvers|
      ensures ResolverHonest(s', s'.resolvers[r])
    {
      ResolverStaysHonest(c, s, t, r);
    }
    forall i | 0 <= i < |s'.trades|
      ensures RowTruth(c, s', i)
    {
      if i < |s.trades| {
        RowTruthKept(c, s, t, i);
      }
    }
  }

  // ── Over whole runs ─────────────────────────────────────────────────────

  lemma {:induction false} TruthInvAlways(c: Config, r: Run, n: nat)
    requires IsRun(c, r) && n < |r.states| && VisibleInTime(c)
    ensures TruthInv(c, r.states[n])
  {
    if n > 0 {
      TruthInvAlways(c, r, n - 1);
      OnceInvAlways(c, r, n - 1);
      TimingInvAlways(c, r, n - 1);
      StepAt(c, r, n - 1);
      hide Do, Can, Connected, TimingInv, OnceInv, TruthInv;
      TruthInvKept(c, r.states[n - 1], r.steps[n - 1]);
    }
  }

  /** No trade is failed while the exchange holds an order for it that it did not itself report as failed. */
  lemma NoFalseFailure(c: Config, r: Run, n: nat, i: nat)
    requires IsRun(c, r) && n < |r.states| && VisibleInTime(c)
    requires i < |r.states[n].trades| && r.states[n].trades[i].status == Failed && r.states[n].trades[i].cid in r.states[n].placed
    ensures r.states[n].placed[r.states[n].trades[i].cid].status == Failed
  {
    TruthInvAlways(c, r, n);
    OnceInvAlways(c, r, n);
    var s := r.states[n];
    assert RowTruth(c, s, i);
    assert Called(s.calls, s.trades[i].cid);
    var k :| 0 <= k < |s.calls| && s.calls[k].cid == s.trades[i].cid;
    assert CallFits(s.trades, s.calls[k]);
  }

  /** A filled row that is not simulated stands for an order the exchange filled. */
  lemma FilledMeansFilled(c: Config, r: Run, n: nat, i: nat)
    requires IsRun(c, r) && n < |r.states| && VisibleInTime(c)
    requires i < |r.states[n].trades| && r.states[n].trades[i].status == Filled && !r.states[n].trades[i].simulated
    ensures r.states[n].trades[i].cid in r.states[n].placed
    ensures r.states[n].placed[r.states[n].trades[i].cid].status == Filled
  {
    TruthInvAlways(c, r, n);
    assert RowTruth(c, r.states[n], i);
  }

  /** The pipeline itself fails a trade only on a refusal or on the exchange's own word, never on a lookup that found nothing. */
  lemma InlineNotFoundIsNotFailure(c: Config, s: State, p: Phase, t: WorkerStep)
    requires CanWork(c, s, p, t) && WorkEffect(c, s, p, t).Rewrite? && WorkEffect(c, s, p, t).status == Failed
    ensures p.Refused? || ((p.Answered? || p.Found?) && p.report == Failed)
    ensures !p.Uncertain? && !p.Unwritten?
  {}
}
