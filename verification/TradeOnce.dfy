/**
 At most one order per signal: in every run, whatever is redelivered, re-enqueued
 or raced, createOrder is called at most once for a (bot, signal), and every order
 on the exchange belongs to a trade row that carries its client order id.
 */
module TradeOnce {
  import opened Basics
  import opened TradeStore
  import opened TradeProtocol
  import opened TradeEffects

  // ── Uniqueness of rows ──────────────────────────────────────────────────

  lemma UniqueKept(c: Config, s: State, t: Step)
    requires Can(c, s, t) && Unique(s.trades)
    ensures Unique(Do(c, s, t).trades)
  {
    TradesAfter(c, s, t);
    if t.Worker? {
      WorkEffectFacts(c, s, s.workers[t.w], t.step);
    }
    assert t.World? ==> Effect(c, s, t).Keep?;
    assert t.Resolving? ==> !Effect(c, s, t).Append?;
    hide Do, Can, CanWork, WorkEffect, ResolveEffect;
  }

  // ── Ownership of rows ───────────────────────────────────────────────────

  predicate HasCall(p: Phase) {
    p.Holding? || p.Cleared? || p.Sent? || p.Answered? || p.Refused? || p.Fetching? || p.Found?
  }

  ghost predicate PhaseFits(trades: seq<Trade>, p: Phase) {
    && ((Owns(p) || p.NeedsJob?) ==> p.id < |trades|)
    && (Owns(p) ==> !trades[p.id].simulated)
    && (HasCall(p) ==> trades[p.id].cid == p.cid)
  }

  ghost predicate PhasesFit(s: State) {
    forall w :: 0 <= w < |s.workers| ==> PhaseFits(s.trades, s.workers[w])
  }

  ghost predicate SoleOwners(s: State) {
    forall v, w :: 0 <= v < w < |s.workers| && Owns(s.workers[v]) && Owns(s.workers[w]) ==> s.workers[v].id != s.workers[w].id
  }

  lemma FitsLater(before: seq<Trade>, after: seq<Trade>, p: Phase)
    requires Extends(before, after) && PhaseFits(before, p)
    ensures PhaseFits(after, p)
  {}

  predicate Inherits(p: Phase, q: Phase)
    requires Owns(q)
  {
    Owns(p) && q.id == p.id && (HasCall(q) ==> HasCall(p) && q.cid == p.cid)
  }

  predicate TakesNew(s: State, e: RowEffect, q: Phase) {
    e.Append? && !e.row.simulated && q.Holding? && q.id == |s.trades| && q.cid == e.row.cid
  }

  /** Every phase a step leads to keeps the row and client order id of the phase before, or takes a new row's. */
  lemma WorkCarries(c: Config, s: State, p: Phase, t: WorkerStep)
    requires CanWork(c, s, p, t)
    ensures var q := Work(c, s, p, t).1;
      && (q.NeedsJob? ==> (Owns(p) && q.id == p.id) || q.id < |s.trades|)
      && (Owns(q) ==> Inherits(p, q) || TakesNew(s, WorkEffect(c, s, p, t), q))
  {}

  lemma WorkFits(c: Config, s: State, p: Phase, t: WorkerStep)
    requires CanWork(c, s, p, t) && PhaseFits(s.trades, p)
    ensures PhaseFits(Work(c, s, p, t).0.trades, Work(c, s, p, t).1)
  {
    WorkCarries(c, s, p, t);
    WorkTrades(c, s, p, t);
    hide Work, WorkEffect, CanWork;
  }

  /** A worker keeps the row it owns, or takes a row that did not exist before. */
  lemma WorkKeepsOwnership(c: Config, s: State, p: Phase, t: WorkerStep)
    requires CanWork(c, s, p, t) && PhaseFits(s.trades, p) && Owns(Work(c, s, p, t).1)
    ensures (Owns(p) && Work(c, s, p, t).1.id == p.id) || (t.ReserveTrade? && Work(c, s, p, t).1.id == |s.trades|)
  {}

  lemma PhasesFitKept(c: Config, s: State, t: Step)
    requires Can(c, s, t) && PhasesFit(s)
    ensures PhasesFit(Do(c, s, t))
  {
    RowsKept(c, s, t);
    OthersStay(c, s, t);
    if t.Worker? {
      WorkFits(c, s, s.workers[t.w], t.step);
    }
    assert t.Worker? ==> Do(c, s, t).trades == Work(c, s, s.workers[t.w], t.step).0.trades;
    hide Do, Work, Resolve, Happen, PhaseFits, Extends;
    forall w | 0 <= w < |s.workers| && !(t.Worker? && t.w == w)
      ensures PhaseFits(Do(c, s, t).trades, Do(c, s, t).workers[w])
    {
      FitsLater(s.trades, Do(c, s, t).trades, s.workers[w]);
    }
  }

  lemma SoleOwnersKept(c: Config, s: State, t: Step)
    requires Can(c, s, t) && PhasesFit(s) && SoleOwners(s)
    ensures SoleOwners(Do(c, s, t))
  {
    OthersStay(c, s, t);
    if t.Worker? && Owns(Do(c, s, t).workers[t.w]) {
      WorkKeepsOwnership(c, s, s.workers[t.w], t.step);
    }
    hide Do, Work, Resolve, Happen;
  }

  // ── Calls ───────────────────────────────────────────────────────────────

  ghost predicate CallFits(trades: seq<Trade>, k: Call) {
    k.trade < |trades| && k.key == trades[k.trade].key && k.cid == trades[k.trade].cid && k.side == trades[k.trade].side && !trades[k.trade].simulated
  }

  ghost predicate CallsFit(s: State) {
    && (forall k :: 0 <= k < |s.calls| ==> CallFits(s.trades, s.calls[k]))
    && (forall j, k :: 0 <= j < k < |s.calls| ==> s.calls[j].trade != s.calls[k].trade)
  }

  /** No call yet for a row whose worker has not reached createOrder. */
  ghost predicate NotCalledYet(s: State) {
    forall w, k :: 0 <= w < |s.workers| && (s.workers[w].Holding? || s.workers[w].Cleared?) && 0 <= k < |s.calls| ==>
      s.calls[k].trade != s.workers[w].id
  }

  lemma WorkBeforeCall(c: Config, s: State, p: Phase, t: WorkerStep)
    requires CanWork(c, s, p, t)
    requires Work(c, s, p, t).1.Holding? || Work(c, s, p, t).1.Cleared?
    ensures (p.Holding? && Work(c, s, p, t).1.id == p.id) || (t.ReserveTrade? && Work(c, s, p, t).1.id == |s.trades|)
    ensures !t.CreateOrder?
  {}

  lemma CallsFitKept(c: Config, s: State, t: Step)
    requires Can(c, s, t) && PhasesFit(s) && CallsFit(s) && NotCalledYet(s)
    ensures CallsFit(Do(c, s, t))
  {
    RowsKept(c, s, t);
    CallsAfter(c, s, t);
    if t.Worker? && t.step.CreateOrder? {
      assert PhaseFits(s.trades, s.workers[t.w]);
      assert s.workers[t.w].Cleared?;
    }
    hide Do, Work, Resolve, Happen, Can;
  }

  lemma NotCalledYetKept(c: Config, s: State, t: Step)
    requires Can(c, s, t) && PhasesFit(s) && SoleOwners(s) && CallsFit(s) && NotCalledYet(s)
    ensures NotCalledYet(Do(c, s, t))
  {
    OthersStay(c, s, t);
    CallsAfter(c, s, t);
    if t.Worker? {
      var p := s.workers[t.w];
      assert PhaseFits(s.trades, p);
      var next := Do(c, s, t).workers[t.w];
      if next.Holding? || next.Cleared? {
        WorkBeforeCall(c, s, p, t.step);
      }
      assert t.step.CreateOrder? ==> p.Cleared?;
    }
    hide Do, Work, Resolve, Happen, Can, CanWork;
  }

  // ── The exchange ────────────────────────────────────────────────────────

  ghost predicate Called(calls: seq<Call>, cid: nat) {
    exists k :: 0 <= k < |calls| && calls[k].cid == cid
  }

  ghost predicate ExchangeFits(s: State) {
    && (forall cid :: cid in s.travelling ==> s.travelling[cid] < |s.trades| && s.trades[s.travelling[cid]].cid == cid && Called(s.calls, cid))
    && (forall cid :: cid in s.placed ==> Called(s.calls, cid))
  }

  lemma CalledLater(calls: seq<Call>, more: seq<Call>, cid: nat)
    requires Called(calls, cid)
    ensures Called(calls + more, cid)
  {
    var k :| 0 <= k < |calls| && calls[k].cid == cid;
    assert (calls + more)[k].cid == cid;
  }

  lemma TravellingFits(c: Config, s: State, t: Step, cid: nat)
    requires Can(c, s, t) && PhasesFit(s) && ExchangeFits(s) && cid in Do(c, s, t).travelling
    ensures var id := Do(c, s, t).travelling[cid];
      id < |Do(c, s, t).trades| && Do(c, s, t).trades[id].cid == cid && Called(Do(c, s, t).calls, cid)
  {
    RowsKept(c, s, t);
    CallsAfter(c, s, t);
    ExchangeAfter(c, s, t);
    if t.Worker? && t.step.CreateOrder? && cid == s.workers[t.w].cid {
      assert PhaseFits(s.trades, s.workers[t.w]);
      assert Do(c, s, t).calls[|s.calls|].cid == cid;
    } else {
      hide Do, Can;
      CalledLater(s.calls, Do(c, s, t).calls[|s.calls|..], cid);
    }
  }

  lemma PlacedFits(c: Config, s: State, t: Step, cid: nat)
    requires Can(c, s, t) && ExchangeFits(s) && cid in Do(c, s, t).placed
    ensures Called(Do(c, s, t).calls, cid)
  {
    CallsAfter(c, s, t);
    ExchangeAfter(c, s, t);
    hide Do, Can;
    CalledLater(s.calls, Do(c, s, t).calls[|s.calls|..], cid);
  }

  lemma ExchangeFitsKept(c: Config, s: State, t: Step)
    requires Can(c, s, t) && PhasesFit(s) && ExchangeFits(s)
    ensures ExchangeFits(Do(c, s, t))
  {
    hide Do, Can, Called, PhasesFit;
    var s' := Do(c, s, t);
    forall cid | cid in s'.travelling
      ensures s'.travelling[cid] < |s'.trades| && s'.trades[s'.travelling[cid]].cid == cid && Called(s'.calls, cid)
    {
      TravellingFits(c, s, t, cid);
    }
    forall cid | cid in s'.placed
      ensures Called(s'.calls, cid)
    {
      PlacedFits(c, s, t, cid);
    }
  }

  // ── Over whole runs ─────────────────────────────────────────────────────

  ghost predicate OnceInv(s: State) {
    Unique(s.trades) && PhasesFit(s) && SoleOwners(s) && CallsFit(s) && NotCalledYet(s) && ExchangeFits(s)
  }

  lemma OnceInvKept(c: Config, s: State, t: Step)
    requires Can(c, s, t) && OnceInv(s)
    ensures OnceInv(Do(c, s, t))
  {
    UniqueKept(c, s, t);
    PhasesFitKept(c, s, t);
    SoleOwnersKept(c, s, t);
    CallsFitKept(c, s, t);
    NotCalledYetKept(c, s, t);
    ExchangeFitsKept(c, s, t);
  }

  lemma {:induction false} OnceInvAlways(c: Config, r: Run, n: nat)
    requires IsRun(c, r) && n < |r.states|
    ensures OnceInv(r.states[n])
  {
    if n > 0 {
      OnceInvAlways(c, r, n - 1);
      StepAt(c, r, n - 1);
      OnceInvKept(c, r.states[n - 1], r.steps[n - 1]);
    }
  }

  /** createOrder is called at most once for a (bot, signal), with the side and client order id of its trade row. */
  lemma OneOrderPerSignal(c: Config, r: Run, n: nat, j: nat, k: nat)
    requires IsRun(c, r) && n < |r.states| && j < |r.states[n].calls| && k < |r.states[n].calls|
    requires r.states[n].calls[j].key == r.states[n].calls[k].key
    ensures j == k
    ensures CallFits(r.states[n].trades, r.states[n].calls[k])
  {
    OnceInvAlways(c, r, n);
    var s := r.states[n];
    assert CallFits(s.trades, s.calls[j]) && CallFits(s.trades, s.calls[k]);
  }

  /** Every order on the exchange has exactly one trade row with its client order id, and it is not a simulated one. */
  lemma EveryOrderHasARow(c: Config, r: Run, n: nat, cid: nat)
    requires IsRun(c, r) && n < |r.states| && cid in r.states[n].placed
    ensures exists i :: 0 <= i < |r.states[n].trades| && r.states[n].trades[i].cid == cid && !r.states[n].trades[i].simulated
    ensures Unique(r.states[n].trades)
  {
    OnceInvAlways(c, r, n);
    var s := r.states[n];
    assert Called(s.calls, cid);
    var k :| 0 <= k < |s.calls| && s.calls[k].cid == cid;
    assert CallFits(s.trades, s.calls[k]);
  }
}
