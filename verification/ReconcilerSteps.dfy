/**
 The resolver as a program takes the steps of the resolver in the step system, one
 after the other. Crashes and other actors between the steps are not in this program;
 they are in the runs of the step system.
 */
module ReconcilerSteps {
  import opened Basics
  import opened TradeStore
  import P = TradeProtocol
  import R = Reconciler

  function TablesOf(s: P.State): R.Tables {
    R.Tables(s.trades, s.jobs, s.audits)
  }

  /** The first step after a trade is selected. */
  function LookStep(answer: R.Answer, w: R.Writes): P.ResolverStep {
    match answer
    case NoAdapter => P.Skip
    case Transient => P.Skip
    case AuthError => P.AuthFailed(w.job)
    case Absent => P.LookNull
    case Reported(status) => P.LookFound(status)
  }

  function StepsFor(answer: R.Answer, w: R.Writes, wins: bool): seq<P.ResolverStep> {
    [LookStep(answer, w)]
    + (if answer.Absent? || answer.Reported? then [P.Update(w.trade)] else [])
    + (if wins then [P.UpdateTheJob(w.job), P.Audit(w.audit)] else [])
  }

  ghost predicate Runs(c: P.Config, s: P.State, p: P.Resolver, steps: seq<P.ResolverStep>)
    decreases |steps|
  {
    steps == [] ||
    (P.CanResolve(c, s, p, steps[0]) && var (s', q) := P.Resolve(c, s, p, steps[0]); Runs(c, s', q, steps[1..]))
  }

  ghost function After(c: P.Config, s: P.State, p: P.Resolver, steps: seq<P.ResolverStep>): (P.State, P.Resolver)
    requires Runs(c, s, p, steps)
    decreases |steps|
  {
    if steps == [] then (s, p)
    else var (s', q) := P.Resolve(c, s, p, steps[0]); After(c, s', q, steps[1..])
  }

  lemma OneMore(c: P.Config, s: P.State, p: P.Resolver, t: P.ResolverStep, rest: seq<P.ResolverStep>)
    requires P.CanResolve(c, s, p, t)
    requires Runs(c, P.Resolve(c, s, p, t).0, P.Resolve(c, s, p, t).1, rest)
    ensures Runs(c, s, p, [t] + rest)
    ensures After(c, s, p, [t] + rest) == After(c, P.Resolve(c, s, p, t).0, P.Resolve(c, s, p, t).1, rest)
  {
    assert ([t] + rest)[1..] == rest;
  }

  /** Winning the guarded update is followed by the job update and the audit row. */
  lemma WinnerFinishes(c: P.Config, s: P.State, id: nat, w: R.Writes)
    ensures var rest := [P.UpdateTheJob(w.job)] + ([P.Audit(w.audit)] + []);
      && Runs(c, s, P.Won(id), rest)
      && After(c, s, P.Won(id), rest) ==
         (s.(jobs := if w.job then CloseJob(s.jobs, id, JobResolved) else s.jobs, audits := if w.audit then s.audits + [id] else s.audits), P.Resting)
  {
    var (s1, p1) := P.Resolve(c, s, P.Won(id), P.UpdateTheJob(w.job));
    OneMore(c, s1, p1, P.Audit(w.audit), []);
    OneMore(c, s, P.Won(id), P.UpdateTheJob(w.job), [P.Audit(w.audit)] + []);
  }

  /** The whole resolution of a selected trade is one sequence of steps with the same tables in the end. */
  lemma ProgramTakesSteps(c: P.Config, s: P.State, id: nat, seen: TradeStatus, answer: R.Answer, w: R.Writes)
    requires Stuck(seen) && P.CanResolve(c, s, P.Selected(id), LookStep(answer, w))
    ensures var wins := R.Verdict(answer).Some? && w.trade && R.StuckRow(TablesOf(s), id);
      && Runs(c, s, P.Selected(id), StepsFor(answer, w, wins))
      && var (s', q) := After(c, s, P.Selected(id), StepsFor(answer, w, wins));
      && q == P.Resting
      && TablesOf(s') == R.Resolved(TablesOf(s), id, seen, answer, w).0
      && s'.calls == s.calls && s'.placed == s.placed && s'.travelling == s.travelling
  {
    var wins := R.Verdict(answer).Some? && w.trade && R.StuckRow(TablesOf(s), id);
    var rest := if wins then [P.UpdateTheJob(w.job)] + ([P.Audit(w.audit)] + []) else [];
    var (s1, p1) := P.Resolve(c, s, P.Selected(id), LookStep(answer, w));
    if answer.Absent? || answer.Reported? {
      var (s2, p2) := P.Resolve(c, s1, p1, P.Update(w.trade));
      if wins {
        WinnerFinishes(c, s2, id, w);
      }
      OneMore(c, s1, p1, P.Update(w.trade), rest);
      OneMore(c, s, P.Selected(id), LookStep(answer, w), [P.Update(w.trade)] + rest);
      assert StepsFor(answer, w, wins) == [LookStep(answer, w)] + ([P.Update(w.trade)] + rest);
    } else {
      OneMore(c, s, P.Selected(id), LookStep(answer, w), []);
      assert StepsFor(answer, w, wins) == [LookStep(answer, w)] + [];
    }
  }
}
