/**
 What a step of the trade pipeline can do to each table, told in a few shapes, so
 that later proofs follow the shapes and not the list of steps.
 */
module TradeEffects {
  import opened Basics
  import opened TradeStore
  import opened TradeProtocol

  /** The worker inserted this row and may still write it. */
  predicate Owns(p: Phase) {
    p.Holding? || p.Cleared? || p.Sent? || p.Answered? || p.Unwritten? || p.Refused? || p.Fetching? || p.Found? || p.Uncertain?
  }

  // ── The trades table ────────────────────────────────────────────────────

  datatype RowEffect = Keep | Rewrite(id: nat, status: TradeStatus) | Append(row: Trade)

  function Applied(trades: seq<Trade>, e: RowEffect): seq<Trade> {
    match e
    case Keep => trades
    case Rewrite(id, status) => WithStatus(trades, id, status)
    case Append(row) => trades + [row]
  }

  function When(applied: bool, id: nat, status: TradeStatus): RowEffect {
    if applied then Rewrite(id, status) else Keep
  }

  ghost function WorkEffect(c: Config, s: State, p: Phase, t: WorkerStep): RowEffect
    requires CanWork(c, s, p, t)
  {
    match t
    case Simulate(cid, applied) =>
      if !applied || HasKey(s.trades, p.key) || HasCid(s.trades, cid) then Keep
      else Append(Trade(p.key, p.side, if p.requested.Some? then p.requested else Some(0.0), Filled, s.now, cid, true))
    case ReserveTrade(cid, rpcFailed) =>
      if !rpcFailed && Reserves(c, s, p, cid)
      then Append(NewTrade(p.key, cid, p.side, if p.side == Buy then p.requested else None, s.now))
      else Keep
    case AuditBlocked(applied) => When(applied, p.id, Cancelled)
    case WriteStatus(applied, _) => When(applied, p.id, p.report)
    case MarkUnknown(applied) => When(applied, p.id, Unknown)
    case WriteFailed(applied) => When(applied, p.id, Failed)
    case WriteFound(applied) => When(applied, p.id, p.report)
    case WriteUncertain(applied) => When(applied, p.id, Unknown)
    case _ => Keep
  }

  ghost function ResolveEffect(c: Config, s: State, p: Resolver, t: ResolverStep): RowEffect
    requires CanResolve(c, s, p, t)
  {
    if Wins(s, p, t)
    then Rewrite(p.id, Settles(p.result).value)
    else Keep
  }

  ghost function Effect(c: Config, s: State, t: Step): RowEffect
    requires Can(c, s, t)
  {
    match t
    case Worker(w, step) => WorkEffect(c, s, s.workers[w], step)
    case Resolving(r, look) => ResolveEffect(c, s, s.resolvers[r], look)
    case World(_) => Keep
  }

  lemma WorkTrades(c: Config, s: State, p: Phase, t: WorkerStep)
    requires CanWork(c, s, p, t)
    ensures Work(c, s, p, t).0.trades == Applied(s.trades, WorkEffect(c, s, p, t))
  {
    hide HasKey, HasCid, Reserves, BotBlocked, NextPhase, QueueNext, CallsNext, TravellingNext, LimitsOf;
  }

  lemma ResolveTrades(c: Config, s: State, p: Resolver, t: ResolverStep)
    requires CanResolve(c, s, p, t)
    ensures Resolve(c, s, p, t).0.trades == Applied(s.trades, ResolveEffect(c, s, p, t))
  {}

  lemma HappenTrades(c: Config, s: State, t: WorldStep)
    requires CanHappen(c, s, t)
    ensures Happen(c, s, t).trades == s.trades
    ensures Happen(c, s, t).workers == s.workers && Happen(c, s, t).resolvers == s.resolvers
    ensures Happen(c, s, t).calls == s.calls && Happen(c, s, t).audits == s.audits
  {}

  lemma TradesAfter(c: Config, s: State, t: Step)
    requires Can(c, s, t)
    ensures Do(c, s, t).trades == Applied(s.trades, Effect(c, s, t))
  {
    match t
    case Worker(w, step) =>
      WorkTrades(c, s, s.workers[w], step);
      hide Work, WorkEffect, Applied;
    case Resolving(r, look) =>
      ResolveTrades(c, s, s.resolvers[r], look);
      hide Resolve, ResolveEffect, Applied;
    case World(event) =>
      HappenTrades(c, s, event);
      hide Happen;
  }

  /** A worker rewrites only the row it owns, in time; it appends only a row that breaks no UNIQUE constraint. */
  lemma WorkEffectFacts(c: Config, s: State, p: Phase, t: WorkerStep)
    requires CanWork(c, s, p, t)
    ensures var e := WorkEffect(c, s, p, t);
      && (e.Rewrite? ==> Owns(p) && e.id == p.id && InTime(c, s, e.id))
      && (e.Append? ==>
            && p.Ready? && !HasKey(s.trades, e.row.key) && !HasCid(s.trades, e.row.cid)
            && e.row.createdAt == s.now && e.row.key == p.key && e.row.side == p.side
            && (e.row.simulated ==> t.Simulate? && e.row.status == Filled && e.row.requested.Some?)
            && (!e.row.simulated ==>
                  && t.ReserveTrade? && p.approved && p.bot.live
                  && e.row == NewTrade(p.key, t.cid, p.side, if p.side == Buy then p.requested else None, s.now)))
  {}

  // ── Who moves ───────────────────────────────────────────────────────────

  lemma OthersStay(c: Config, s: State, t: Step)
    requires Can(c, s, t)
    ensures |Do(c, s, t).workers| == |s.workers| && |Do(c, s, t).resolvers| == |s.resolvers|
    ensures forall w :: 0 <= w < |s.workers| && !(t.Worker? && t.w == w) ==> Do(c, s, t).workers[w] == s.workers[w]
    ensures forall r :: 0 <= r < |s.resolvers| && !(t.Resolving? && t.r == r) ==> Do(c, s, t).resolvers[r] == s.resolvers[r]
    ensures t.Worker? ==> Do(c, s, t).workers[t.w] == Work(c, s, s.workers[t.w], t.step).1
    ensures t.Resolving? ==> Do(c, s, t).resolvers[t.r] == Resolve(c, s, s.resolvers[t.r], t.look).1
  {
    if t.World? {
      HappenTrades(c, s, t.event);
    }
    if t.Worker? {
      WorkKeepsActors(c, s, s.workers[t.w], t.step);
    }
    if t.Resolving? {
      ResolveKeepsActors(c, s, s.resolvers[t.r], t.look);
    }
    hide Work, Resolve, Happen, CanWork, CanResolve, CanHappen;
  }

  lemma WorkKeepsActors(c: Config, s: State, p: Phase, t: WorkerStep)
    requires CanWork(c, s, p, t)
    ensures Work(c, s, p, t).0.workers == s.workers && Work(c, s, p, t).0.resolvers == s.resolvers
  {}

  lemma WorkKeepsWorld(c: Config, s: State, p: Phase, t: WorkerStep)
    requires CanWork(c, s, p, t)
    ensures Work(c, s, p, t).0.now == s.now && Work(c, s, p, t).0.placed == s.placed
  {}

  lemma WorkKeepsAudits(c: Config, s: State, p: Phase, t: WorkerStep)
    requires CanWork(c, s, p, t)
    ensures Work(c, s, p, t).0.audits == s.audits
  {}

  lemma ResolveKeepsActors(c: Config, s: State, p: Resolver, t: ResolverStep)
    requires CanResolve(c, s, p, t)
    ensures Resolve(c, s, p, t).0.workers == s.workers && Resolve(c, s, p, t).0.resolvers == s.resolvers
    ensures var s' := Resolve(c, s, p, t).0;
      s'.now == s.now && s'.calls == s.calls && s'.placed == s.placed && s'.travelling == s.travelling
      && s'.queue == s.queue && s'.proposals == s.proposals && s'.granted == s.granted
  {}

  // ── Rows over time ──────────────────────────────────────────────────────

  /** Trade rows are appended, and later only their status changes. */
  ghost predicate Extends(before: seq<Trade>, after: seq<Trade>) {
    && |before| <= |after|
    && forall i :: 0 <= i < |before| ==> after[i] == before[i].(status := after[i].status)
  }

  lemma RowsKept(c: Config, s: State, t: Step)
    requires Can(c, s, t)
    ensures Extends(s.trades, Do(c, s, t).trades)
  {
    TradesAfter(c, s, t);
    hide Do, Effect, Can;
  }

  lemma {:induction false} RowsKeptAlways(c: Config, r: Run, m: nat, n: nat)
    requires Connected(c, r) && m <= n < |r.states|
    ensures Extends(r.states[m].trades, r.states[n].trades)
    decreases n - m
  {
    assert |r.states| == |r.steps| + 1;
    hide Do, Can, Connected;
    if m < n {
      StepAt(c, r, m);
      RowsKept(c, r.states[m], r.steps[m]);
      RowsKeptAlways(c, r, m + 1, n);
    }
  }

  // ── Calls and the exchange ──────────────────────────────────────────────

  function CallOf(s: State, p: Phase): Call
    requires p.Cleared? && p.id < |s.trades|
  {
    Call(p.id, s.trades[p.id].key, p.cid, s.trades[p.id].side)
  }

  lemma WorkCalls(c: Config, s: State, p: Phase, t: WorkerStep)
    requires CanWork(c, s, p, t)
    ensures Work(c, s, p, t).0.calls == s.calls + (if t.CreateOrder? then [CallOf(s, p)] else [])
  {}

  lemma WorkTravelling(c: Config, s: State, p: Phase, t: WorkerStep)
    requires CanWork(c, s, p, t)
    ensures Work(c, s, p, t).0.travelling ==
      if t.CreateOrder? then s.travelling[p.cid := p.id] else if t.OrderRefused? then s.travelling - {p.cid} else s.travelling
  {}

  lemma CallsAfter(c: Config, s: State, t: Step)
    requires Can(c, s, t)
    ensures Do(c, s, t).calls == s.calls + (if t.Worker? && t.step.CreateOrder? then [CallOf(s, s.workers[t.w])] else [])
  {
    match t
    case Worker(w, step) =>
      WorkCalls(c, s, s.workers[w], step);
      hide Work;
    case Resolving(r, look) =>
      ResolveKeepsActors(c, s, s.resolvers[r], look);
      hide Resolve;
    case World(event) =>
      HappenTrades(c, s, event);
      hide Happen;
  }

  lemma HappenExchange(c: Config, s: State, t: WorldStep)
    requires CanHappen(c, s, t)
    ensures forall cid :: cid in Happen(c, s, t).travelling ==> cid in s.travelling && Happen(c, s, t).travelling[cid] == s.travelling[cid]
    ensures forall cid :: cid in Happen(c, s, t).placed ==>
      cid in s.placed || (t.Arrive? && t.cid == cid && cid in s.travelling && MayLag(c, s, s.travelling[cid]))
    ensures forall cid :: cid in s.placed && Terminal(s.placed[cid].status) && !(t.Arrive? && t.cid == cid) ==>
      cid in Happen(c, s, t).placed && Happen(c, s, t).placed[cid] == s.placed[cid]
    ensures forall cid :: cid in s.placed ==> cid in Happen(c, s, t).placed
  {}

  /** Requests start travelling in createOrder only; orders appear only out of travelling requests. */
  lemma ExchangeAfter(c: Config, s: State, t: Step)
    requires Can(c, s, t)
    ensures forall cid :: cid in Do(c, s, t).travelling ==>
              (cid in s.travelling && Do(c, s, t).travelling[cid] == s.travelling[cid])
              || (t.Worker? && t.step.CreateOrder? && cid == s.workers[t.w].cid && Do(c, s, t).travelling[cid] == s.workers[t.w].id)
    ensures forall cid :: cid in Do(c, s, t).placed ==>
              cid in s.placed || (t == World(Arrive(cid, Do(c, s, t).placed[cid].status)) && cid in s.travelling && MayLag(c, s, s.travelling[cid]))
    ensures forall cid :: cid in s.placed ==> cid in Do(c, s, t).placed
    ensures !t.World? ==> Do(c, s, t).placed == s.placed
  {
    match t
    case Worker(w, step) =>
      WorkTravelling(c, s, s.workers[w], step);
      WorkKeepsWorld(c, s, s.workers[w], step);
      hide Work;
    case Resolving(r, look) =>
      ResolveKeepsActors(c, s, s.resolvers[r], look);
      hide Resolve;
    case World(event) =>
      HappenExchange(c, s, event);
      assert event.Arrive? ==> Happen(c, s, event).placed[event.cid].status == event.status;
      hide Happen;
  }
}
