/**
 What the kill switch guarantees: after it commits, a worker can finish at most
 the one order whose context it had already loaded, and no bot trades again until
 it is switched on again, whatever happens to the switch itself.
 */
module ExecKillSwitch {
  import opened Basics
  import opened ExecQueue
  import opened ExecService
  import opened ExecClaims

  /** The worker holds a context that says the bot may trade, and has not used it yet. */
  predicate MayTrade(p: Phase, bot: nat) {
    ((p.Loaded? && p.ctx.enabled) || p.Open? || p.Sized?) && p.ctx.bot == bot
  }

  /** The worker is past the gate and has not used that yet. */
  predicate PastGate(p: Phase, bot: nat) {
    (p.Open? || p.Sized?) && p.ctx.bot == bot
  }

  predicate IsSubmission(s: State, t: Step, w: nat, bot: nat) {
    t.Submit? && t.w == w && w < |s.workers| && s.workers[w].Sized? && s.workers[w].ctx.bot == bot
  }

  /** Submissions of a worker for a bot in the steps from m up to n. */
  function Submissions(r: Run, m: nat, n: nat, w: nat, bot: nat): nat
    requires m <= n <= |r.steps| <= |r.states|
  {
    if m == n then 0
    else Submissions(r, m, n - 1, w, bot) + One(IsSubmission(r.states[n - 1], r.steps[n - 1], w, bot))
  }

  lemma NoSubmissions(r: Run, m: nat, w: nat, bot: nat)
    requires m <= |r.steps| <= |r.states|
    ensures Submissions(r, m, m, w, bot) == 0
  {}

  lemma LastSubmission(r: Run, m: nat, n: nat, w: nat, bot: nat)
    requires m < n <= |r.steps| <= |r.states|
    ensures Submissions(r, m, n, w, bot) == Submissions(r, m, n - 1, w, bot) + One(IsSubmission(r.states[n - 1], r.steps[n - 1], w, bot))
  {}

  lemma PermissionOnlyFades(c: Config, s: State, t: Step, w: nat, bot: nat)
    requires Can(c, s, t) && w < |s.workers|
    requires bot !in s.enabled && t != EnableBot(bot, true)
    ensures bot !in Do(c, s, t).enabled && w < |Do(c, s, t).workers|
    ensures MayTrade(Do(c, s, t).workers[w], bot) ==> MayTrade(s.workers[w], bot) && Do(c, s, t).workers[w].item == s.workers[w].item
    ensures IsSubmission(s, t, w, bot) ==> MayTrade(s.workers[w], bot) && !MayTrade(Do(c, s, t).workers[w], bot)
  {
    hide HasOrder, CapsOf, Armed, Claimable;
  }

  lemma EngageDisables(c: Config, s: State)
    ensures Can(c, s, Engage) && Do(c, s, Engage).enabled == {} && Do(c, s, Engage).workers == s.workers
  {}

  lemma {:induction false} PermissionUsedOnce(c: Config, r: Run, m: nat, n: nat, w: nat, bot: nat)
    requires Connected(c, r) && m <= n <= |r.steps| && w < |r.states[m].workers|
    requires bot !in r.states[m].enabled
    requires forall k :: m <= k < n ==> r.steps[k] != EnableBot(bot, true)
    ensures bot !in r.states[n].enabled && w < |r.states[n].workers|
    ensures Submissions(r, m, n, w, bot) + One(MayTrade(r.states[n].workers[w], bot)) <= One(MayTrade(r.states[m].workers[w], bot))
    ensures MayTrade(r.states[n].workers[w], bot) ==> r.states[n].workers[w].item == r.states[m].workers[w].item
    decreases n
  {
    assert |r.states| == |r.steps| + 1;
    hide Do, Can, Connected, MayTrade, IsSubmission, Submissions;
    if m == n {
      NoSubmissions(r, m, w, bot);
    } else {
      LastSubmission(r, m, n, w, bot);
      StepAt(c, r, n - 1);
      PermissionUsedOnce(c, r, m, n - 1, w, bot);
      PermissionOnlyFades(c, r.states[n - 1], r.steps[n - 1], w, bot);
    }
  }

  /**
   After the kill switch commits at step k, and until the bot itself is enabled
   again, each worker submits at most once for the bot, and only with a context it
   had loaded before; releasing the switch, arming and re-claims change nothing.
   */
  lemma KillSwitchHolds(c: Config, r: Run, k: nat, n: nat, w: nat, bot: nat)
    requires Connected(c, r) && k < n <= |r.steps| && r.steps[k].Engage? && w < |r.states[k].workers|
    requires forall j :: k < j < n ==> r.steps[j] != EnableBot(bot, true)
    ensures Submissions(r, k + 1, n, w, bot) <= One(MayTrade(r.states[k].workers[w], bot))
  {
    StepAt(c, r, k);
    EngageDisables(c, r.states[k]);
    hide Do, Can;
    PermissionUsedOnce(c, r, k + 1, n, w, bot);
  }

  /** The submission, if any, is of the very item the worker held when the switch committed. */
  lemma KillSwitchSameItem(c: Config, r: Run, k: nat, n: nat, w: nat, bot: nat)
    requires Connected(c, r) && k < n < |r.steps| && r.steps[k].Engage? && w < |r.states[k].workers|
    requires forall j :: k < j < n ==> r.steps[j] != EnableBot(bot, true)
    requires IsSubmission(r.states[n], r.steps[n], w, bot)
    ensures MayTrade(r.states[k].workers[w], bot) && r.states[n].workers[w].item == r.states[k].workers[w].item
  {
    StepAt(c, r, k);
    EngageDisables(c, r.states[k]);
    hide Do, Can;
    PermissionUsedOnce(c, r, k + 1, n, w, bot);
  }

  // ── Over all bots ───────────────────────────────────────────────────────

  /** The worker may still submit for some bot. */
  predicate MayTradeAny(p: Phase) {
    (p.Loaded? && p.ctx.enabled) || p.Open? || p.Sized?
  }

  predicate IsAnySubmission(t: Step, w: nat) {
    t.Submit? && t.w == w
  }

  /** Submissions of a worker, whatever the bot, in the steps from m up to n. */
  function AllSubmissions(r: Run, m: nat, n: nat, w: nat): nat
    requires m <= n <= |r.steps|
  {
    if m == n then 0 else AllSubmissions(r, m, n - 1, w) + One(IsAnySubmission(r.steps[n - 1], w))
  }

  predicate EnablesOne(t: Step) {
    t.EnableBot? && t.on
  }

  lemma AnyPermissionFades(c: Config, s: State, t: Step, w: nat)
    requires Can(c, s, t) && w < |s.workers| && s.enabled == {} && !EnablesOne(t)
    ensures Do(c, s, t).enabled == {} && w < |Do(c, s, t).workers|
    ensures MayTradeAny(Do(c, s, t).workers[w]) ==> MayTradeAny(s.workers[w])
    ensures IsAnySubmission(t, w) ==> MayTradeAny(s.workers[w]) && !MayTradeAny(Do(c, s, t).workers[w])
  {
    hide HasOrder, CapsOf, Armed, Claimable;
  }

  lemma {:induction false} AnyPermissionUsedOnce(c: Config, r: Run, m: nat, n: nat, w: nat)
    requires Connected(c, r) && m <= n <= |r.steps| && w < |r.states[m].workers| && r.states[m].enabled == {}
    requires forall k :: m <= k < n ==> !EnablesOne(r.steps[k])
    ensures r.states[n].enabled == {} && w < |r.states[n].workers|
    ensures AllSubmissions(r, m, n, w) + One(MayTradeAny(r.states[n].workers[w])) <= One(MayTradeAny(r.states[m].workers[w]))
    decreases n
  {
    assert |r.states| == |r.steps| + 1;
    hide Do, Can, Connected, MayTradeAny, IsAnySubmission, EnablesOne;
    if m < n {
      StepAt(c, r, n - 1);
      AnyPermissionUsedOnce(c, r, m, n - 1, w);
      AnyPermissionFades(c, r.states[n - 1], r.steps[n - 1], w);
    }
  }

  /** After the switch commits, and until any bot is enabled, each worker submits at most once in all. */
  lemma KillSwitchStopsAll(c: Config, r: Run, k: nat, n: nat, w: nat)
    requires Connected(c, r) && k < n <= |r.steps| && r.steps[k].Engage? && w < |r.states[k].workers|
    requires forall j :: k < j < n ==> !EnablesOne(r.steps[j])
    ensures AllSubmissions(r, k + 1, n, w) <= One(MayTradeAny(r.states[k].workers[w]))
  {
    StepAt(c, r, k);
    EngageDisables(c, r.states[k]);
    hide Do, Can;
    AnyPermissionUsedOnce(c, r, k + 1, n, w);
  }

  // ── While the switch stays on ───────────────────────────────────────────

  lemma GateOnlyFades(c: Config, s: State, t: Step, w: nat, bot: nat)
    requires Can(c, s, t) && w < |s.workers| && s.gate.kill && t != Disengage
    ensures w < |Do(c, s, t).workers|
    ensures PastGate(Do(c, s, t).workers[w], bot) ==> PastGate(s.workers[w], bot)
  {
    hide HasOrder, CapsOf, ContextOf, Claimable;
  }

  lemma KillStays(c: Config, s: State, t: Step)
    requires Can(c, s, t) && s.gate.kill && t != Disengage
    ensures Do(c, s, t).gate.kill
  {
    hide HasOrder, CapsOf, ContextOf, Claimable;
  }

  /** A submission uses the worker's permission up. */
  lemma SubmissionUses(c: Config, s: State, t: Step, w: nat, bot: nat)
    requires Can(c, s, t) && IsSubmission(s, t, w, bot)
    ensures PastGate(s.workers[w], bot) && w < |Do(c, s, t).workers| && !PastGate(Do(c, s, t).workers[w], bot)
  {}

  predicate Engaged(s: State) {
    s.gate.kill
  }

  /** The step from one state to the next, while the switch stays on. */
  lemma GateStep(c: Config, s: State, t: Step, s': State, w: nat, bot: nat)
    requires Can(c, s, t) && s' == Do(c, s, t) && w < |s.workers| && Engaged(s) && t != Disengage
    ensures Engaged(s') && w < |s'.workers|
    ensures One(IsSubmission(s, t, w, bot)) + One(PastGate(s'.workers[w], bot)) <= One(PastGate(s.workers[w], bot))
  {
    GateOnlyFades(c, s, t, w, bot);
    KillStays(c, s, t);
    hide Do, Can, PastGate, IsSubmission;
    if IsSubmission(s, t, w, bot) {
      SubmissionUses(c, s, t, w, bot);
    }
  }

  /** While the switch stays on, even a loaded context is stopped: only orders past the gate can still go out. */
  lemma {:induction false} EngagedMeansGateShut(c: Config, r: Run, m: nat, n: nat, w: nat, bot: nat)
    requires Connected(c, r) && m <= n <= |r.steps| && w < |r.states[m].workers| && Engaged(r.states[m])
    requires forall k :: m <= k < n ==> r.steps[k] != Disengage
    ensures Engaged(r.states[n]) && w < |r.states[n].workers|
    ensures Submissions(r, m, n, w, bot) + One(PastGate(r.states[n].workers[w], bot)) <= One(PastGate(r.states[m].workers[w], bot))
    decreases n
  {
    assert |r.states| == |r.steps| + 1;
    hide *;
    if m == n {
      NoSubmissions(r, m, w, bot);
    } else {
      LastSubmission(r, m, n, w, bot);
      StepAt(c, r, n - 1);
      EngagedMeansGateShut(c, r, m, n - 1, w, bot);
      GateStep(c, r.states[n - 1], r.steps[n - 1], r.states[n], w, bot);
    }
  }
}
