/**
 The timing rule between the pipeline and the resolvers, and what rests on it: a
 settled status never changes again, and every settled status tells the truth
 about the exchange; in particular no trade is failed while an order for it exists
 that the exchange did not itself report as failed.

 The pipeline updates a row by id with no status guard. Only the rule keeps its
 writes away from rows a resolver has settled: the pipeline works on a row for at
 most the visibility timeout, a resolver only looks at rows older than a threshold
 that is not below it.
 */
module TradeTiming {
  import opened Basics
  import opened TradeStore
  import opened TradeProtocol
  import opened TradeEffects
  import opened TradeOnce

  /**
   The rule itself. The runtime scan keeps to it by construction; the boot resolver
   uses the plain threshold, so with it the visibility timeout must not exceed that.
   */
  predicate TimingRule(c: Config) {
    c.visibility <= Cutoff(c) && !c.lossyWrites
  }

  ghost predicate Late(c: Config, s: State, id: nat) {
    id < |s.trades| && s.trades[id].createdAt + Cutoff(c) < s.now
  }

  predicate Works(p: Resolver) {
    !p.Resting?
  }

  ghost predicate ResolversLate(c: Config, s: State) {
    forall r :: 0 <= r < |s.resolvers| && Works(s.resolvers[r]) ==> Late(c, s, s.resolvers[r].id)
  }

  /** While its owner may still write it, a row is pending. */
  ghost predicate OwnedArePending(c: Config, s: State) {
    forall w :: 0 <= w < |s.workers| && Owns(s.workers[w]) && !Late(c, s, s.workers[w].id) && s.workers[w].id < |s.trades| ==>
      s.trades[s.workers[w].id].status == Pending
  }

  ghost predicate TimingInv(c: Config, s: State) {
    ResolversLate(c, s) && OwnedArePending(c, s)
  }

  lemma NowAdvances(c: Config, s: State, t: Step)
    requires Can(c, s, t)
    ensures s.now <= Do(c, s, t).now
    ensures !t.World? ==> Do(c, s, t).now == s.now
  {
    match t
    case Worker(w, step) =>
      WorkKeepsWorld(c, s, s.workers[w], step);
      hide Work;
    case Resolving(r, look) =>
      ResolveKeepsActors(c, s, s.resolvers[r], look);
      hide Resolve;
    case World(event) =>
      TimeOnlyTicks(c, s, event);
      hide Happen;
  }

  lemma TimeOnlyTicks(c: Config, s: State, t: WorldStep)
    requires CanHappen(c, s, t)
    ensures s.now <= Happen(c, s, t).now
  {}

  lemma LateStays(c: Config, s: State, t: Step, id: nat)
    requires Can(c, s, t) && Late(c, s, id)
    ensures Late(c, Do(c, s, t), id)
  {
    NowAdvances(c, s, t);
    RowsKept(c, s, t);
    hide Do, Can;
  }

  lemma ResolveCarries(c: Config, s: State, p: Resolver, t: ResolverStep)
    requires CanResolve(c, s, p, t) && Works(Resolve(c, s, p, t).1)
    ensures var q := Resolve(c, s, p, t).1;
      if t.Select? then q.Selected? && Late(c, s, q.id) else Works(p) && q.id == p.id
  {}

  lemma ResolversLateKept(c: Config, s: State, t: Step)
    requires Can(c, s, t) && ResolversLate(c, s)
    ensures ResolversLate(c, Do(c, s, t))
  {
    OthersStay(c, s, t);
    forall r | 0 <= r < |Do(c, s, t).resolvers| && Works(Do(c, s, t).resolvers[r])
      ensures Late(c, Do(c, s, t), Do(c, s, t).resolvers[r].id)
    {
      if t.Resolving? && t.r == r {
        ResolveCarries(c, s, s.resolvers[r], t.look);
      }
      hide Do, Can, Late, Work, Resolve;
      LateStays(c, s, t, Do(c, s, t).resolvers[r].id);
    }
  }

  /** Whoever rewrites a row finds it stuck: the resolver checks, the pipeline is protected by the rule. */
  lemma RewritesStuck(c: Config, s: State, t: Step)
    requires Can(c, s, t) && TimingRule(c) && TimingInv(c, s) && Effect(c, s, t).Rewrite?
    ensures Effect(c, s, t).id < |s.trades| && Stuck(s.trades[Effect(c, s, t).id].status)
  {
    if t.Worker? {
      WorkEffectFacts(c, s, s.workers[t.w], t.step);
      hide WorkEffect, CanWork;
      assert !Late(c, s, Effect(c, s, t).id);
    }
  }

  lemma WorkDone(c: Config, s: State, p: Phase, t: WorkerStep)
    requires CanWork(c, s, p, t) && !c.lossyWrites && Owns(Work(c, s, p, t).1)
    ensures !WorkEffect(c, s, p, t).Rewrite?
  {}

  /** After a step, an owner's row is as it was, unless a resolver settled it. */
  lemma OwnerAfter(c: Config, s: State, t: Step, s': State, w: nat)
    requires Can(c, s, t) && s' == Do(c, s, t)
    requires TimingRule(c) && TimingInv(c, s) && PhasesFit(s) && SoleOwners(s)
    requires w < |s'.workers| && Owns(s'.workers[w]) && !Late(c, s', s'.workers[w].id) && s'.workers[w].id < |s'.trades|
    ensures s'.trades[s'.workers[w].id].status == Pending
  {
    OthersStay(c, s, t);
    TradesAfter(c, s, t);
    var q := s'.workers[w];
    if t.Worker? {
      var p := s.workers[t.w];
      WorkEffectFacts(c, s, p, t.step);
      assert Effect(c, s, t) == WorkEffect(c, s, p, t.step);
      if t.w == w {
        WorkDone(c, s, p, t.step);
        WorkCarries(c, s, p, t.step);
      }
      assert PhaseFits(s.trades, p) && PhaseFits(s.trades, s.workers[w]);
      if q.id < |s.trades| && Late(c, s, q.id) {
        LateStays(c, s, t, q.id);
      }
    } else {
      assert PhaseFits(s.trades, q);
      if Late(c, s, q.id) {
        LateStays(c, s, t, q.id);
      }
      assert Effect(c, s, t).Rewrite? ==> t.Resolving? && Late(c, s, Effect(c, s, t).id);
    }
    hide Do, Can, CanWork, Work, Resolve, WorkEffect, Effect, PhaseFits;
  }

  lemma TimingInvKept(c: Config, s: State, t: Step)
    requires Can(c, s, t) && TimingRule(c) && TimingInv(c, s) && PhasesFit(s) && SoleOwners(s)
    ensures TimingInv(c, Do(c, s, t))
  {
    ResolversLateKept(c, s, t);
    OthersStay(c, s, t);
    hide Do, Can, Late, Work, Resolve;
    var s' := Do(c, s, t);
    forall w | 0 <= w < |s'.workers| && Owns(s'.workers[w]) && !Late(c, s', s'.workers[w].id) && s'.workers[w].id < |s'.trades|
      ensures s'.trades[s'.workers[w].id].status == Pending
    {
      OwnerAfter(c, s, t, s', w);
    }
  }

  // ── Settled rows ────────────────────────────────────────────────────────

  /** Only stuck rows change. */
  ghost predicate SettledStay(before: seq<Trade>, after: seq<Trade>) {
    && |before| <= |after|
    && forall i :: 0 <= i < |before| && !Stuck(before[i].status) ==> after[i] == before[i]
  }

  lemma SettledKept(c: Config, s: State, t: Step)
    requires Can(c, s, t) && TimingRule(c) && TimingInv(c, s)
    ensures SettledStay(s.trades, Do(c, s, t).trades)
  {
    TradesAfter(c, s, t);
    if Effect(c, s, t).Rewrite? {
      RewritesStuck(c, s, t);
    }
    hide Do, Can, Effect;
  }

  lemma {:induction false} TimingInvAlways(c: Config, r: Run, n: nat)
    requires IsRun(c, r) && n < |r.states| && TimingRule(c)
    ensures TimingInv(c, r.states[n])
  {
    if n > 0 {
      TimingInvAlways(c, r, n - 1);
      OnceInvAlways(c, r, n - 1);
      StepAt(c, r, n - 1);
      hide Do, Can, Connected, TimingInv;
      TimingInvKept(c, r.states[n - 1], r.steps[n - 1]);
    }
  }

  /** Under the timing rule, a row that is no longer pending or unknown never changes again. */
  lemma {:induction false} SettledForEver(c: Config, r: Run, m: nat, n: nat)
    requires IsRun(c, r) && m <= n < |r.states| && TimingRule(c)
    ensures SettledStay(r.states[m].trades, r.states[n].trades)
    decreases n - m
  {
    if m < n {
      TimingInvAlways(c, r, m);
      StepAt(c, r, m);
      SettledKept(c, r.states[m], r.steps[m]);
      SettledForEver(c, r, m + 1, n);
      hide Do, Can, Connected, TimingInv;
    }
  }
}
