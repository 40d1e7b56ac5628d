/**
 Reconciliation jobs of unknown trades. Every way the pipeline leaves a trade unknown
 adds a job for it, except the inline lookup that finds the order with status
 unknown: that trade has no job, although nothing failed.
 */
module TradeJobs {
  import opened Basics
  import opened TradeStore
  import opened TradeProtocol
  import opened TradeEffects
  import opened TradeScenario
  import opened TradeTimingNeeded

  /** The worker still has to add the trade's job. */
  predicate Owes(p: Phase, id: nat) {
    (p.NeedsJob? || p.Unwritten?) && p.id == id
  }

  ghost predicate Owed(s: State, id: nat) {
    exists w :: 0 <= w < |s.workers| && Owes(s.workers[w], id)
  }

  ghost predicate Unknowing(s: State, id: nat) {
    id < |s.trades| && s.trades[id].status == Unknown
  }

  ghost predicate Provided(s: State, id: nat) {
    Unknowing(s, id) ==> id in s.jobs || Owed(s, id)
  }

  /** The trade's order was found by the inline lookup and is written down as unknown. */
  predicate FindsUnknown(s: State, t: Step, id: nat) {
    t.Worker? && t.step == WriteFound(true) && t.w < |s.workers| && s.workers[t.w].Found?
    && s.workers[t.w].id == id && s.workers[t.w].report == Unknown
  }

  // ── Steps ───────────────────────────────────────────────────────────────

  lemma WorkKeepsJobs(c: Config, s: State, p: Phase, t: WorkerStep)
    requires CanWork(c, s, p, t)
    ensures forall id :: id in s.jobs ==> id in Work(c, s, p, t).0.jobs
  {}

  lemma ResolveKeepsJobs(c: Config, s: State, p: Resolver, t: ResolverStep)
    requires CanResolve(c, s, p, t)
    ensures forall id :: id in s.jobs ==> id in Resolve(c, s, p, t).0.jobs
  {}

  lemma HappenKeepsJobs(c: Config, s: State, t: WorldStep)
    requires CanHappen(c, s, t)
    ensures forall id :: id in s.jobs ==> id in Happen(c, s, t).jobs
  {}

  /** No job is ever deleted. */
  lemma JobsStay(c: Config, s: State, t: Step)
    requires Can(c, s, t)
    ensures forall id :: id in s.jobs ==> id in Do(c, s, t).jobs
  {
    match t
    case Worker(w, step) =>
      WorkKeepsJobs(c, s, s.workers[w], step);
      hide Work;
    case Resolving(r, look) =>
      ResolveKeepsJobs(c, s, s.resolvers[r], look);
      hide Resolve;
    case World(event) =>
      HappenKeepsJobs(c, s, event);
      hide Happen;
  }

  /** A worker that makes a row unknown, or owes its job, owes the job afterwards or has added it. */
  lemma WorkerPays(c: Config, s: State, p: Phase, t: WorkerStep, id: nat)
    requires CanWork(c, s, p, t) && !t.Crash? && t != AddJob(false)
    requires Owes(p, id) || (WorkEffect(c, s, p, t) == Rewrite(id, Unknown) && !(t.WriteFound? && p.report == Unknown))
    ensures Owes(Work(c, s, p, t).1, id) || id in Work(c, s, p, t).0.jobs
  {
    hide BotBlocked, HasKey, HasCid, Reserves, TradesNext, QueueNext, CallsNext, TravellingNext, ProposalsNext, InTime;
  }

  lemma ProvidedKept(c: Config, s: State, t: Step, id: nat)
    requires Can(c, s, t) && Provided(s, id) && !Faulty(t) && !FindsUnknown(s, t, id)
    ensures Provided(Do(c, s, t), id)
  {
    var s' := Do(c, s, t);
    TradesAfter(c, s, t);
    OthersStay(c, s, t);
    JobsStay(c, s, t);
    var e := Effect(c, s, t);
    assert e.Append? ==> e.row.status != Unknown;
    assert t.Resolving? && e.Rewrite? ==> e.status != Unknown;
    if t.Worker? {
      var p := s.workers[t.w];
      assert CanWork(c, s, p, t.step) && e == WorkEffect(c, s, p, t.step) && s'.jobs == Work(c, s, p, t.step).0.jobs;
      assert e.Rewrite? && t.step.WriteFound? ==> t.step.applied && p.Found? && e.id == p.id;
    }
    hide Do, Can, CanWork, Effect, WorkEffect, Work, Owes;
    if Unknowing(s', id) {
      if t.Worker? && (Owes(s.workers[t.w], id) || e == Rewrite(id, Unknown)) {
        WorkerPays(c, s, s.workers[t.w], t.step, id);
        assert s'.workers[t.w] == Work(c, s, s.workers[t.w], t.step).1;
      } else {
        assert Unknowing(s, id);
        if id !in s.jobs {
          var w :| 0 <= w < |s.workers| && Owes(s.workers[w], id);
          assert s'.workers[w] == s.workers[w];
        }
      }
    }
  }

  // ── Over whole runs ─────────────────────────────────────────────────────

  /**
   As long as nobody crashes, no insert of a job fails and no lookup finds its order
   unknown, an unknown trade has a job or a worker about to add it.
   */
  lemma {:induction false} UnknownHasAJob(c: Config, r: Run, n: nat, id: nat)
    requires IsRun(c, r) && n < |r.states| && Faultless(r.steps)
    requires forall k :: 0 <= k < n ==> !FindsUnknown(r.states[k], r.steps[k], id)
    ensures Provided(r.states[n], id)
  {
    if n > 0 {
      UnknownHasAJob(c, r, n - 1, id);
      StepAt(c, r, n - 1);
      hide Do, Can, Connected, Provided, FindsUnknown, Faulty;
      ProvidedKept(c, r.states[n - 1], r.steps[n - 1], id);
    }
  }

  /** An unknown trade, no job for it, no message left and nobody at work. */
  ghost predicate Forgotten(s: State, id: nat) {
    && Unknowing(s, id) && id !in s.jobs && s.queue == map[]
    && forall w :: 0 <= w < |s.workers| ==> s.workers[w].Idle?
  }

  /** Without a crash or a failed insert, only the lookup that finds its order unknown leaves a trade so. */
  lemma OnlyTheLookupForgets(c: Config, r: Run, n: nat, id: nat)
    requires IsRun(c, r) && n < |r.states| && Faultless(r.steps) && Forgotten(r.states[n], id)
    ensures exists k :: 0 <= k < n && FindsUnknown(r.states[k], r.steps[k], id)
  {
    assert |r.states| == |r.steps| + 1;
    hide IsRun, FindsUnknown;
    if forall k :: 0 <= k < n ==> !FindsUnknown(r.states[k], r.steps[k], id) {
      UnknownHasAJob(c, r, n, id);
      assert false;
    }
  }

  /** The exchange holds the order; createOrder's answer was lost, and the lookup finds the order without a known status. */
  lemma ToFoundUnknown(c: Config) returns (r: Run)
    ensures r.states != [] && IsRun(c, r) && Faultless(r.steps)
    ensures Last(r).workers == [Found(1, 0, 0, Unknown)] && Last(r).trades == [Row()] && Last(r).jobs == map[]
    ensures Last(r).queue.Keys == {1} && Last(r).now == 0
  {
    var r1 := ToSent(c);
    hide IsRun;
    var r2 := Grow(c, r1, World(Arrive(0, Submitted)));
    var r3 := Grow(c, r2, Worker(0, AnswerLost));
    assert Last(r3).workers == [Fetching(1, 0, 0)];
    r := Grow(c, r3, Worker(0, FetchFound(Unknown)));
    assert Last(r).workers == [Found(1, 0, 0, Unknown)];
  }

  /** And it does, whatever the configuration. */
  lemma FoundUnknownIsForgotten(c: Config) returns (r: Run)
    ensures r.states != [] && IsRun(c, r) && Faultless(r.steps) && Forgotten(Last(r), 0)
  {
    var r1 := ToFoundUnknown(c);
    hide IsRun;
    var r2 := Grow(c, r1, Worker(0, WriteFound(true)));
    assert Last(r2).trades == [Row().(status := Unknown)];
    assert Last(r2).workers == [Leaving(1, true)];
    r := Grow(c, r2, Worker(0, Leave(true)));
    assert Last(r).queue.Keys == {};
    assert Last(r).workers == [Idle];
  }
}
