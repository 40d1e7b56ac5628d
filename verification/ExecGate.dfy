/**
 What a submission presupposes: its worker read the gate in an earlier state in which
 all five conditions held, on a context it had loaded while the bot was enabled.
 Where a deployment has not armed the service, nothing is ever submitted.
 */
module ExecGate {
  import opened Basics
  import opened ExecQueue
  import opened ExecService
  import opened ExecClaims

  /** Worker w loads a context of this bot, with the bot's own switch in this position. */
  ghost predicate Loads(s: State, t: Step, w: nat, bot: nat, on: bool) {
    t == Load(w) && w < |s.workers| && (bot in s.enabled) == on
  }

  /** Worker w reads a gate at which nothing is closed. */
  ghost predicate ReadsOpen(c: Config, s: State, t: Step, w: nat) {
    && t == ReadGate(w, true, true) && w < |s.workers|
    && c.envArmed && s.gate.dbArmed && !s.gate.kill && c.testnet && c.environmentsAgree
  }

  /** A loading before n. */
  ghost predicate LoadedBy(r: Run, n: nat, w: nat, bot: nat, on: bool) {
    exists l :: 0 <= l < n && l < |r.steps| && l < |r.states| && Loads(r.states[l], r.steps[l], w, bot, on)
  }

  /** A loading with the bot enabled and after it an open gate, both before n. */
  ghost predicate Passed(c: Config, r: Run, n: nat, w: nat, bot: nat) {
    exists m :: 0 <= m < n && m < |r.steps| && m < |r.states| && ReadsOpen(c, r.states[m], r.steps[m], w) && LoadedBy(r, m, w, bot, true)
  }

  ghost predicate PhaseLoaded(c: Config, r: Run, n: nat, w: nat, p: Phase) {
    && (p.Loaded? ==> LoadedBy(r, n, w, p.ctx.bot, p.ctx.enabled))
    && (p.Open? || p.Sized? ==> Passed(c, r, n, w, p.ctx.bot))
  }

  ghost predicate GateInv(c: Config, r: Run, n: nat)
    requires n < |r.states|
  {
    && (forall w :: 0 <= w < |r.states[n].workers| ==> PhaseLoaded(c, r, n, w, r.states[n].workers[w]))
    && (forall k :: 0 <= k < |r.states[n].submissions| ==>
          Passed(c, r, n, r.states[n].submissions[k].worker, r.states[n].submissions[k].bot))
  }

  // ── Steps ───────────────────────────────────────────────────────────────

  lemma LoadedLater(r: Run, n: nat, w: nat, bot: nat, on: bool)
    requires LoadedBy(r, n, w, bot, on)
    ensures LoadedBy(r, n + 1, w, bot, on)
  {
    var l :| 0 <= l < n && l < |r.steps| && l < |r.states| && Loads(r.states[l], r.steps[l], w, bot, on);
  }

  lemma PassedLater(c: Config, r: Run, n: nat, w: nat, bot: nat)
    requires Passed(c, r, n, w, bot)
    ensures Passed(c, r, n + 1, w, bot)
  {
    hide LoadedBy;
    var m :| 0 <= m < n && m < |r.steps| && m < |r.states| && ReadsOpen(c, r.states[m], r.steps[m], w) && LoadedBy(r, m, w, bot, true);
  }

  lemma PhaseLater(c: Config, r: Run, n: nat, w: nat, p: Phase)
    requires PhaseLoaded(c, r, n, w, p)
    ensures PhaseLoaded(c, r, n + 1, w, p)
  {
    hide LoadedBy, Passed;
    if p.Loaded? {
      LoadedLater(r, n, w, p.ctx.bot, p.ctx.enabled);
    }
    if p.Open? || p.Sized? {
      PassedLater(c, r, n, w, p.ctx.bot);
    }
  }

  /** Where a worker's phases come from. */
  lemma ActorComesFrom(c: Config, s: State, t: Step, w: nat)
    requires Can(c, s, t) && Actor(t) == Some(w)
    ensures w < |s.workers| && w < |Do(c, s, t).workers|
    ensures var p, q := s.workers[w], Do(c, s, t).workers[w];
      && (q.Loaded? ==> Loads(s, t, w, q.ctx.bot, q.ctx.enabled))
      && (q.Open? ==> p.Loaded? && q.ctx == p.ctx && p.ctx.enabled && ReadsOpen(c, s, t, w))
      && (q.Sized? ==> p.Open? && q.ctx == p.ctx)
      && (t.Submit? ==> p.Sized?)
  {
    hide HasOrder, CapsOf, Claimable;
  }

  lemma ActorLoaded(c: Config, r: Run, n: nat, w: nat)
    requires Connected(c, r) && n < |r.steps| && Can(c, r.states[n], r.steps[n]) && Actor(r.steps[n]) == Some(w)
    requires w < |r.states[n].workers| && PhaseLoaded(c, r, n, w, r.states[n].workers[w])
    ensures w < |Do(c, r.states[n], r.steps[n]).workers|
    ensures PhaseLoaded(c, r, n + 1, w, Do(c, r.states[n], r.steps[n]).workers[w])
  {
    var s, t := r.states[n], r.steps[n];
    ActorComesFrom(c, s, t, w);
    var p, q := s.workers[w], Do(c, s, t).workers[w];
    hide Do, Can, Connected;
    if q.Sized? {
      PassedLater(c, r, n, w, p.ctx.bot);
    }
    hide LoadedBy;
    if q.Loaded? {
      LoadedNow(r, n, w, q.ctx.bot, q.ctx.enabled);
    }
  }

  lemma LoadedNow(r: Run, n: nat, w: nat, bot: nat, on: bool)
    requires n < |r.steps| && n < |r.states| && Loads(r.states[n], r.steps[n], w, bot, on)
    ensures LoadedBy(r, n + 1, w, bot, on)
  {}

  lemma GateInvKept(c: Config, r: Run, n: nat)
    requires Connected(c, r) && n < |r.steps| && n + 1 < |r.states| && GateInv(c, r, n)
    ensures GateInv(c, r, n + 1)
  {
    StepAt(c, r, n);
    var s, t, s' := r.states[n], r.steps[n], r.states[n + 1];
    OnlyTheActorMoves(c, s, t);
    OnlySubmitCalls(c, s, t);
    assert t.Submit? ==> Actor(t) == Some(t.w);
    hide Do, Can, Connected, PhaseLoaded, Passed;
    forall w | 0 <= w < |s'.workers|
      ensures PhaseLoaded(c, r, n + 1, w, s'.workers[w])
    {
      if Actor(t) == Some(w) {
        ActorLoaded(c, r, n, w);
      } else {
        PhaseLater(c, r, n, w, s.workers[w]);
      }
    }
    forall k | 0 <= k < |s'.submissions|
      ensures Passed(c, r, n + 1, s'.submissions[k].worker, s'.submissions[k].bot)
    {
      if k == |s.submissions| {
        SubmitPassed(c, r, n);
      } else {
        PassedLater(c, r, n, s.submissions[k].worker, s.submissions[k].bot);
      }
    }
  }

  lemma SubmitPassed(c: Config, r: Run, n: nat)
    requires n < |r.steps| && n < |r.states| && r.steps[n].Submit? && Can(c, r.states[n], r.steps[n])
    requires PhaseLoaded(c, r, n, r.steps[n].w, r.states[n].workers[r.steps[n].w])
    ensures r.states[n].workers[r.steps[n].w].Sized?
    ensures Passed(c, r, n + 1, r.steps[n].w, r.states[n].workers[r.steps[n].w].ctx.bot)
  {
    hide Passed;
    PassedLater(c, r, n, r.steps[n].w, r.states[n].workers[r.steps[n].w].ctx.bot);
  }

  // ── Over whole runs ─────────────────────────────────────────────────────

  lemma {:induction false} GateInvAlways(c: Config, r: Run, n: nat)
    requires IsRun(c, r) && n < |r.states|
    ensures GateInv(c, r, n)
  {
    assert |r.states| == |r.steps| + 1;
    if n > 0 {
      hide GateInv, Connected;
      GateInvAlways(c, r, n - 1);
      GateInvKept(c, r, n - 1);
    }
  }

  /**
   Behind every submission its worker loaded the context while the bot was enabled, and
   then read the gate with an adapter wired: armed in the environment, armed in the
   database, kill switch off, on testnet, environment and database agreeing.
   */
  lemma SubmissionsWereArmed(c: Config, r: Run, n: nat, k: nat) returns (l: nat, m: nat)
    requires IsRun(c, r) && n < |r.states| && k < |r.states[n].submissions|
    ensures l < m < n && m < |r.steps|
    ensures var w := r.states[n].submissions[k].worker;
      && r.steps[l] == Load(w) && r.states[n].submissions[k].bot in r.states[l].enabled
      && r.steps[m] == ReadGate(w, true, true)
    ensures c.envArmed && c.testnet && c.environmentsAgree && r.states[m].gate.dbArmed && !r.states[m].gate.kill
  {
    GateInvAlways(c, r, n);
    var w, bot := r.states[n].submissions[k].worker, r.states[n].submissions[k].bot;
    assert |r.states| == |r.steps| + 1 && Passed(c, r, n, w, bot);
    hide IsRun, GateInv;
    m :| 0 <= m < n && m < |r.steps| && m < |r.states| && ReadsOpen(c, r.states[m], r.steps[m], w) && LoadedBy(r, m, w, bot, true);
    l :| 0 <= l < m && l < |r.steps| && l < |r.states| && Loads(r.states[l], r.steps[l], w, bot, true);
  }

  /** Not armed in the environment, not on testnet, or environment and database at odds: nothing is ever submitted. */
  lemma NotArmedMeansNothing(c: Config, r: Run, n: nat)
    requires IsRun(c, r) && n < |r.states|
    requires !c.envArmed || !c.testnet || !c.environmentsAgree
    ensures r.states[n].submissions == []
  {
    if r.states[n].submissions != [] {
      var l, m := SubmissionsWereArmed(c, r, n, 0);
      assert false;
    }
  }
}
