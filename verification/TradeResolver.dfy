/**
 Concurrent resolvers: however many run beside each other and beside the pipeline,
 a trade makes at most one terminal transition and gets at most one audit row from
 them, and a job is resolved only for a trade that is settled.
 */
module TradeResolver {
  import opened Basics
  import opened TradeStore
  import opened TradeProtocol
  import opened TradeEffects
  import opened TradeOnce
  import opened TradeTiming

  /** A resolver that won its trade and has not written the audit row yet. */
  predicate Owes(p: Resolver) {
    p.Won? || p.Closed?
  }

  ghost predicate Ended(trades: seq<Trade>, id: nat) {
    id < |trades| && Terminal(trades[id].status)
  }

  ghost predicate AuditsEnded(s: State) {
    && (forall r :: 0 <= r < |s.resolvers| && Owes(s.resolvers[r]) ==> Ended(s.trades, s.resolvers[r].id))
    && (forall k :: 0 <= k < |s.audits| ==> Ended(s.trades, s.audits[k]))
  }

  ghost predicate AuditsDistinct(s: State) {
    && (forall q, r :: 0 <= q < r < |s.resolvers| && Owes(s.resolvers[q]) && Owes(s.resolvers[r]) ==> s.resolvers[q].id != s.resolvers[r].id)
    && (forall r :: 0 <= r < |s.resolvers| && Owes(s.resolvers[r]) ==> s.resolvers[r].id !in s.audits)
    && (forall j, k :: 0 <= j < k < |s.audits| ==> s.audits[j] != s.audits[k])
  }

  ghost predicate JobsEnded(s: State) {
    forall id :: id in s.jobs && s.jobs[id] == JobResolved ==> Ended(s.trades, id)
  }

  // ── Steps ───────────────────────────────────────────────────────────────

  /** A resolver owes an audit row only for a trade it owed before, or one it just moved out of a stuck status. */
  lemma ResolveOwes(c: Config, s: State, p: Resolver, t: ResolverStep)
    requires CanResolve(c, s, p, t)
    ensures var (s', q) := Resolve(c, s, p, t);
      && (Owes(q) ==>
            if t.Update? then p.id == q.id && p.id < |s.trades| && Stuck(s.trades[p.id].status) && Ended(s'.trades, p.id)
            else Owes(p) && q.id == p.id)
      && s'.audits == s.audits + (if t.Audit? && t.applied then [p.id] else [])
      && (t.Audit? ==> Owes(p) && !Owes(q))
  {}

  lemma AuditsAfter(c: Config, s: State, t: Step)
    requires Can(c, s, t)
    ensures Do(c, s, t).audits == s.audits + (if t.Resolving? && t.look.Audit? && t.look.applied then [s.resolvers[t.r].id] else [])
  {
    match t
    case Worker(w, step) =>
      WorkKeepsAudits(c, s, s.workers[w], step);
      hide Work;
    case Resolving(r, look) =>
      ResolveOwes(c, s, s.resolvers[r], look);
      hide Resolve;
    case World(event) =>
      HappenTrades(c, s, event);
      hide Happen;
  }

  lemma EndedStays(before: seq<Trade>, after: seq<Trade>, id: nat)
    requires SettledStay(before, after) && Ended(before, id)
    ensures Ended(after, id)
  {}

  lemma AuditsEndedKept(c: Config, s: State, t: Step)
    requires Can(c, s, t) && TimingRule(c) && TimingInv(c, s) && AuditsEnded(s)
    ensures AuditsEnded(Do(c, s, t))
  {
    OthersStay(c, s, t);
    SettledKept(c, s, t);
    AuditsAfter(c, s, t);
    if t.Resolving? {
      WinnerEnded(c, s, t);
    }
    hide Do, Can, Work, Resolve, TimingInv, SettledStay, Ended;
    var s' := Do(c, s, t);
    forall r | 0 <= r < |s'.resolvers| && Owes(s'.resolvers[r])
      ensures Ended(s'.trades, s'.resolvers[r].id)
    {
      if !(t.Resolving? && t.r == r) {
        EndedStays(s.trades, s'.trades, s.resolvers[r].id);
      }
    }
    forall k | 0 <= k < |s'.audits|
      ensures Ended(s'.trades, s'.audits[k])
    {
      EndedStays(s.trades, s'.trades, s'.audits[k]);
    }
  }

  /** A resolver that owes an audit row after its step owes it for a settled trade. */
  lemma WinnerEnded(c: Config, s: State, t: Step)
    requires Can(c, s, t) && t.Resolving? && TimingRule(c) && TimingInv(c, s) && AuditsEnded(s)
    ensures var q := Resolve(c, s, s.resolvers[t.r], t.look).1; Owes(q) ==> Ended(Do(c, s, t).trades, q.id)
    ensures t.look.Audit? ==> Owes(s.resolvers[t.r])
  {
    ResolveOwes(c, s, s.resolvers[t.r], t.look);
    SettledKept(c, s, t);
    assert Do(c, s, t).trades == Resolve(c, s, s.resolvers[t.r], t.look).0.trades;
    hide Do, Can, Resolve, TimingInv;
  }

  lemma AuditsDistinctKept(c: Config, s: State, t: Step)
    requires Can(c, s, t) && AuditsEnded(s) && AuditsDistinct(s)
    ensures AuditsDistinct(Do(c, s, t))
  {
    OthersStay(c, s, t);
    AuditsAfter(c, s, t);
    if t.Resolving? {
      WinnerIsNew(c, s, t);
    }
    hide Do, Can, Work, Resolve, AuditsEnded;
  }

  /** A resolver owes for the trade it owed for, or for one nobody owes for or has audited. */
  lemma WinnerIsNew(c: Config, s: State, t: Step)
    requires Can(c, s, t) && t.Resolving? && AuditsEnded(s)
    ensures var p, q := s.resolvers[t.r], Resolve(c, s, s.resolvers[t.r], t.look).1;
      && (Owes(q) ==>
            || (Owes(p) && q.id == p.id)
            || (q.id !in s.audits && forall r :: 0 <= r < |s.resolvers| && Owes(s.resolvers[r]) ==> s.resolvers[r].id != q.id))
      && (t.look.Audit? ==> Owes(p) && !Owes(q))
  {
    ResolveOwes(c, s, s.resolvers[t.r], t.look);
    hide Resolve, CanResolve;
  }

  lemma WorkJobs(c: Config, s: State, p: Phase, t: WorkerStep, id: nat)
    requires CanWork(c, s, p, t) && id in Work(c, s, p, t).0.jobs && Work(c, s, p, t).0.jobs[id] == JobResolved
    ensures id in s.jobs && s.jobs[id] == JobResolved
  {}

  lemma ResolveJobs(c: Config, s: State, p: Resolver, t: ResolverStep, id: nat)
    requires CanResolve(c, s, p, t) && id in Resolve(c, s, p, t).0.jobs && Resolve(c, s, p, t).0.jobs[id] == JobResolved
    ensures (id in s.jobs && s.jobs[id] == JobResolved) || (Owes(p) && p.id == id)
  {}

  lemma HappenJobs(c: Config, s: State, t: WorldStep, id: nat)
    requires CanHappen(c, s, t) && id in Happen(c, s, t).jobs && Happen(c, s, t).jobs[id] == JobResolved
    ensures id in s.jobs && s.jobs[id] == JobResolved
  {}

  /** A job becomes resolved only in the hands of a resolver that won its trade. */
  lemma JobsAfter(c: Config, s: State, t: Step, id: nat)
    requires Can(c, s, t) && id in Do(c, s, t).jobs && Do(c, s, t).jobs[id] == JobResolved
    ensures (id in s.jobs && s.jobs[id] == JobResolved) || (t.Resolving? && Owes(s.resolvers[t.r]) && s.resolvers[t.r].id == id)
  {
    match t
    case Worker(w, step) =>
      WorkJobs(c, s, s.workers[w], step, id);
      hide Work;
    case Resolving(r, look) =>
      ResolveJobs(c, s, s.resolvers[r], look, id);
      hide Resolve;
    case World(event) =>
      HappenJobs(c, s, event, id);
      hide Happen;
  }

  lemma JobsEndedKept(c: Config, s: State, t: Step)
    requires Can(c, s, t) && TimingRule(c) && TimingInv(c, s) && AuditsEnded(s) && JobsEnded(s)
    ensures JobsEnded(Do(c, s, t))
  {
    SettledKept(c, s, t);
    assert t.Resolving? ==> t.r < |s.resolvers|;
    hide Do, Can, TimingInv;
    forall id | id in Do(c, s, t).jobs && Do(c, s, t).jobs[id] == JobResolved
      ensures Ended(Do(c, s, t).trades, id)
    {
      JobsAfter(c, s, t, id);
      EndedStays(s.trades, Do(c, s, t).trades, id);
    }
  }

  // ── Over whole runs ─────────────────────────────────────────────────────

  ghost predicate ResolverInv(s: State) {
    AuditsEnded(s) && AuditsDistinct(s) && JobsEnded(s)
  }

  lemma {:induction false} ResolverInvAlways(c: Config, r: Run, n: nat)
    requires IsRun(c, r) && n < |r.states| && TimingRule(c)
    ensures ResolverInv(r.states[n])
  {
    if n > 0 {
      ResolverInvAlways(c, r, n - 1);
      TimingInvAlways(c, r, n - 1);
      StepAt(c, r, n - 1);
      hide Do, Can, Connected, TimingInv, AuditsEnded, AuditsDistinct, JobsEnded;
      AuditsEndedKept(c, r.states[n - 1], r.steps[n - 1]);
      AuditsDistinctKept(c, r.states[n - 1], r.steps[n - 1]);
      JobsEndedKept(c, r.states[n - 1], r.steps[n - 1]);
    }
  }

  /** The resolvers together write at most one audit row per trade, and only for a settled one. */
  lemma OneAuditPerTrade(c: Config, r: Run, n: nat, j: nat, k: nat)
    requires IsRun(c, r) && n < |r.states| && TimingRule(c)
    requires j < |r.states[n].audits| && k < |r.states[n].audits| && r.states[n].audits[j] == r.states[n].audits[k]
    ensures j == k && Ended(r.states[n].trades, r.states[n].audits[k])
  {
    ResolverInvAlways(c, r, n);
  }

  /** A resolved job's trade is settled, and stays as it is in every later state. */
  lemma ResolvedJobIsSettled(c: Config, r: Run, m: nat, n: nat, id: nat)
    requires IsRun(c, r) && m <= n < |r.states| && TimingRule(c)
    requires id in r.states[m].jobs && r.states[m].jobs[id] == JobResolved
    ensures Ended(r.states[m].trades, id)
    ensures Ended(r.states[n].trades, id) && r.states[n].trades[id] == r.states[m].trades[id]
  {
    ResolverInvAlways(c, r, m);
    SettledForEver(c, r, m, n);
  }

  /** After its first terminal transition a trade is never written again, by anyone. */
  lemma OneTerminalTransition(c: Config, r: Run, m: nat, n: nat, id: nat)
    requires IsRun(c, r) && m < |r.steps| && n < |r.steps| && TimingRule(c)
    requires Effect(c, r.states[m], r.steps[m]).Rewrite? && Effect(c, r.states[m], r.steps[m]).id == id
    requires Terminal(Effect(c, r.states[m], r.steps[m]).status)
    requires Effect(c, r.states[n], r.steps[n]).Rewrite? && Effect(c, r.states[n], r.steps[n]).id == id
    ensures n <= m
  {
    StepAt(c, r, m);
    TimingInvAlways(c, r, m);
    TimingInvAlways(c, r, n);
    RewritesStuck(c, r.states[m], r.steps[m]);
    RewritesStuck(c, r.states[n], r.steps[n]);
    TradesAfter(c, r.states[m], r.steps[m]);
    if m < n {
      SettledForEver(c, r, m + 1, n);
      hide Do, Can, Effect, TimingInv, Connected;
    }
  }
}
