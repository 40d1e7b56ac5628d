/**
 What every run of the execution service keeps about leases and submissions:
 attempts account for every claim, submissions never outnumber claims, and so no
 signal is submitted more often than its attempt limit.
 */
module ExecClaims {
  import opened Basics
  import opened ExecQueue
  import opened ExecService

  // ── Claims ──────────────────────────────────────────────────────────────

  /** Claims of one row: its used-up attempts, plus the one now in progress or done. */
  ghost predicate Accounted(item: Item, claims: nat) {
    && item.maxAttempts > 0
    && claims == item.attempts + (if item.status in {Processing, Done} then 1 else 0)
    && (if item.status == Dead then item.attempts == item.maxAttempts else item.attempts < item.maxAttempts)
  }

  ghost predicate LeasesAccounted(s: State) {
    && |s.claims| == |s.items|
    && forall i :: 0 <= i < |s.items| ==> Accounted(s.items[i], s.claims[i])
  }

  lemma LeasesKept(c: Config, s: State, t: Step)
    requires Can(c, s, t) && LeasesAccounted(s)
    ensures LeasesAccounted(Do(c, s, t))
  {}

  // ── Who each row belongs to ─────────────────────────────────────────────

  ghost predicate Linked(c: Config, s: State) {
    && UniqueSignals(s.items)
    && (forall k :: k in s.signals ==> s.signals[k].bot in c.policies)
    && (forall i :: 0 <= i < |s.items| ==> s.items[i].signal in s.signals)
  }

  lemma LinkedKept(c: Config, s: State, t: Step)
    requires Can(c, s, t) && Linked(c, s)
    ensures Linked(c, Do(c, s, t))
  {
    hide HasOrder, ContextOf, CapsOf, Armed;
  }

  /** A loaded context agrees with the row the worker claimed. */
  ghost predicate PhaseLinked(c: Config, s: State, p: Phase) {
    && (!p.Idle? ==> p.item < |s.items|)
    && ((p.Loaded? || p.Blocked? || p.Open? || p.Capped? || p.Sized? || p.Answered?) ==>
          && p.ctx.signal == s.items[p.item].signal
          && p.ctx.signal in s.signals && p.ctx.bot == s.signals[p.ctx.signal].bot && p.ctx.bot in c.policies)
    && ((p.Sized? || p.Answered?) ==> p.notional == FixedOf(c, p.ctx.bot))
  }

  ghost predicate PhasesLinked(c: Config, s: State) {
    forall w :: 0 <= w < |s.workers| ==> PhaseLinked(c, s, s.workers[w])
  }

  ghost predicate Grown(s: State, s': State) {
    && |s.items| <= |s'.items|
    && (forall i :: 0 <= i < |s.items| ==> s'.items[i].signal == s.items[i].signal)
    && forall k :: k in s.signals ==> k in s'.signals && s'.signals[k] == s.signals[k]
  }

  lemma TablesOnlyGrow(c: Config, s: State, t: Step)
    requires Can(c, s, t)
    ensures Grown(s, Do(c, s, t))
  {}

  lemma OnlyTheActorMoves(c: Config, s: State, t: Step)
    requires Can(c, s, t)
    ensures |Do(c, s, t).workers| == |s.workers|
    ensures Actor(t).None? ==> Do(c, s, t).workers == s.workers
    ensures Actor(t).Some? ==> Do(c, s, t).workers == s.workers[Actor(t).value := Do(c, s, t).workers[Actor(t).value]]
  {}

  lemma StaysLinked(c: Config, s: State, s': State, p: Phase)
    requires Grown(s, s') && PhaseLinked(c, s, p)
    ensures PhaseLinked(c, s', p)
  {}

  lemma ActorLinked(c: Config, s: State, t: Step)
    requires Can(c, s, t) && Actor(t).Some? && Linked(c, s)
    requires PhaseLinked(c, s, s.workers[Actor(t).value])
    ensures PhaseLinked(c, s, Do(c, s, t).workers[Actor(t).value])
  {}

  lemma PhasesLinkedKept(c: Config, s: State, t: Step)
    requires Can(c, s, t) && PhasesLinked(c, s) && Linked(c, s)
    ensures PhasesLinked(c, Do(c, s, t))
  {
    TablesOnlyGrow(c, s, t);
    OnlyTheActorMoves(c, s, t);
    if Actor(t).Some? {
      ActorLinked(c, s, t);
    }
    hide Do, PhaseLinked, Grown;
    var s' := Do(c, s, t);
    forall w | 0 <= w < |s'.workers|
      ensures PhaseLinked(c, s', s'.workers[w])
    {
      StaysLinked(c, s, s', s'.workers[w]);
    }
  }

  // ── Submissions ─────────────────────────────────────────────────────────

  /** This claim of the row has come to nothing yet: neither to a submission nor to a row without one. */
  predicate Waiting(p: Phase, item: nat) {
    (p.Claimed? || p.Loaded? || p.Blocked? || p.Open? || p.Capped? || p.Sized?) && p.item == item
  }

  function WaitingFor(workers: seq<Phase>, item: nat): nat {
    if workers == [] then 0
    else WaitingFor(workers[..|workers| - 1], item) + (if Waiting(workers[|workers| - 1], item) then 1 else 0)
  }

  function Submitted(calls: seq<Submission>, item: nat): nat {
    if calls == [] then 0
    else Submitted(calls[..|calls| - 1], item) + (if calls[|calls| - 1].item == item then 1 else 0)
  }

  lemma {:induction false} WaitingMoved(workers: seq<Phase>, w: nat, p: Phase, item: nat)
    requires w < |workers|
    ensures WaitingFor(workers[w := p], item)
         == WaitingFor(workers, item) - (if Waiting(workers[w], item) then 1 else 0) + (if Waiting(p, item) then 1 else 0)
  {
    var n := |workers| - 1;
    if w == n {
      assert workers[w := p][..n] == workers[..n];
    } else {
      WaitingMoved(workers[..n], w, p, item);
      assert workers[w := p][..n] == workers[..n][w := p];
    }
  }

  lemma {:induction false} NoneWaiting(workers: seq<Phase>, item: nat)
    requires forall w :: 0 <= w < |workers| ==> !Waiting(workers[w], item)
    ensures WaitingFor(workers, item) == 0
  {
    if workers != [] {
      NoneWaiting(workers[..|workers| - 1], item);
    }
  }

  /** Submissions of a row, and the claims that may still become one, are within its claims. */
  ghost predicate SubmissionsClaimed(s: State) {
    && |s.claims| == |s.items|
    && forall i :: 0 <= i < |s.items| ==> Submitted(s.submissions, i) + WaitingFor(s.workers, i) <= s.claims[i]
  }

  ghost predicate CallsInTable(s: State) {
    forall k :: 0 <= k < |s.submissions| ==> s.submissions[k].item < |s.items|
  }

  lemma {:induction false} NoCallsYet(calls: seq<Submission>, item: nat)
    requires forall k :: 0 <= k < |calls| ==> calls[k].item != item
    ensures Submitted(calls, item) == 0
  {
    if calls != [] {
      NoCallsYet(calls[..|calls| - 1], item);
    }
  }

  lemma SubmittedAppended(calls: seq<Submission>, call: Submission, item: nat)
    ensures Submitted(calls + [call], item) == Submitted(calls, item) + One(call.item == item)
  {
    assert (calls + [call])[..|calls|] == calls;
  }

  /** A step's own claim and submission weigh out for its worker, row by row. */
  lemma ActorBalance(c: Config, s: State, t: Step, w: nat, i: nat)
    requires Can(c, s, t) && |s.claims| == |s.items| && i < |s.items| && Actor(t) == Some(w)
    ensures i < |Do(c, s, t).claims|
    ensures One(Waiting(Do(c, s, t).workers[w], i)) + One(t.Submit? && s.workers[w].item == i)
         <= One(Waiting(s.workers[w], i)) + Do(c, s, t).claims[i] - s.claims[i]
  {}

  lemma OnlySubmitCalls(c: Config, s: State, t: Step)
    requires Can(c, s, t)
    ensures Do(c, s, t).submissions == s.submissions + (if t.Submit? then [CallOf(s.workers[t.w], t.w)] else [])
  {}

  lemma ClaimsElsewhere(c: Config, s: State, t: Step)
    requires Can(c, s, t) && |s.claims| == |s.items| && Actor(t).None?
    ensures s.claims <= Do(c, s, t).claims
  {}

  /** One step never lets a row's submissions, done or still possible, outgrow its claims. */
  lemma BalanceKept(c: Config, s: State, t: Step, i: nat)
    requires Can(c, s, t) && |s.claims| == |s.items| && i < |s.items|
    requires Submitted(s.submissions, i) + WaitingFor(s.workers, i) <= s.claims[i]
    ensures i < |Do(c, s, t).claims|
    ensures Submitted(Do(c, s, t).submissions, i) + WaitingFor(Do(c, s, t).workers, i) <= Do(c, s, t).claims[i]
  {
    OnlyTheActorMoves(c, s, t);
    OnlySubmitCalls(c, s, t);
    match Actor(t)
    case None =>
      ClaimsElsewhere(c, s, t);
      hide Do;
    case Some(w) =>
      ActorBalance(c, s, t, w, i);
      hide Do;
      var s' := Do(c, s, t);
      WaitingMoved(s.workers, w, s'.workers[w], i);
      if t.Submit? {
        SubmittedAppended(s.submissions, CallOf(s.workers[w], w), i);
      }
  }

  lemma SubmissionsClaimedKept(c: Config, s: State, t: Step)
    requires Can(c, s, t) && CallsInTable(s) && PhasesLinked(c, s) && SubmissionsClaimed(s)
    ensures SubmissionsClaimed(Do(c, s, t))
  {
    var s' := Do(c, s, t);
    assert |s'.items| == |s'.claims| && |s'.items| <= |s.items| + 1;
    assert |s'.items| > |s.items| ==> s'.submissions == s.submissions && s'.workers == s.workers;
    hide Do;
    forall i | 0 <= i < |s'.items|
      ensures Submitted(s'.submissions, i) + WaitingFor(s'.workers, i) <= s'.claims[i]
    {
      if i == |s.items| {
        NoCallsYet(s.submissions, i);
        NoneWaiting(s.workers, i);
      } else {
        BalanceKept(c, s, t, i);
      }
    }
  }

  // ── Over whole runs ─────────────────────────────────────────────────────

  ghost predicate SameKey(s: State) {
    forall k :: 0 <= k < |s.submissions| ==>
      s.submissions[k].item < |s.items| && s.submissions[k].cid == Sig(s.items[s.submissions[k].item].signal)
  }

  lemma SameKeyKept(c: Config, s: State, t: Step)
    requires Can(c, s, t) && PhasesLinked(c, s) && SameKey(s)
    ensures SameKey(Do(c, s, t))
  {
    TablesOnlyGrow(c, s, t);
    OnlySubmitCalls(c, s, t);
    if t.Submit? {
      assert PhaseLinked(c, s, s.workers[t.w]);
    }
    hide Do;
  }

  ghost predicate ClaimInv(c: Config, s: State) {
    LeasesAccounted(s) && Linked(c, s) && PhasesLinked(c, s) && SubmissionsClaimed(s) && SameKey(s)
  }

  lemma ClaimInvInit(c: Config, s: State)
    requires Init(s)
    ensures ClaimInv(c, s)
  {}

  lemma ClaimInvKept(c: Config, s: State, t: Step)
    requires Can(c, s, t) && ClaimInv(c, s)
    ensures ClaimInv(c, Do(c, s, t))
  {
    LeasesKept(c, s, t);
    LinkedKept(c, s, t);
    PhasesLinkedKept(c, s, t);
    assert CallsInTable(s);
    SubmissionsClaimedKept(c, s, t);
    SameKeyKept(c, s, t);
  }

  lemma {:induction false} ClaimInvAlways(c: Config, r: Run, n: nat)
    requires IsRun(c, r) && n < |r.states|
    ensures ClaimInv(c, r.states[n])
  {
    if n == 0 {
      ClaimInvInit(c, r.states[0]);
    } else {
      ClaimInvAlways(c, r, n - 1);
      StepAt(c, r, n - 1);
      ClaimInvKept(c, r.states[n - 1], r.steps[n - 1]);
    }
  }

  /**
   Whatever workers raise, crash, lose their lease or race: a row is claimed once
   per attempt, submitted at most once per claim, hence at most maxAttempts
   times, always under the client order id of its signal.
   */
  lemma SubmissionsBounded(c: Config, r: Run, n: nat, i: nat)
    requires IsRun(c, r) && n < |r.states| && i < |r.states[n].items|
    ensures i < |r.states[n].claims|
    ensures r.states[n].claims[i] == r.states[n].items[i].attempts + One(r.states[n].items[i].status in {Processing, Done})
    ensures Submitted(r.states[n].submissions, i) <= r.states[n].claims[i] <= r.states[n].items[i].maxAttempts
    ensures forall k :: 0 <= k < |r.states[n].submissions| && r.states[n].submissions[k].item == i ==>
              r.states[n].submissions[k].cid == Sig(r.states[n].items[i].signal)
  {
    ClaimInvAlways(c, r, n);
    assert Accounted(r.states[n].items[i], r.states[n].claims[i]);
  }

  function Total(claims: seq<nat>): nat {
    if claims == [] then 0 else Total(claims[..|claims| - 1]) + claims[|claims| - 1]
  }

  function TotalAttempts(items: seq<Item>): nat {
    if items == [] then 0 else TotalAttempts(items[..|items| - 1]) + items[|items| - 1].maxAttempts
  }

  lemma {:induction false} TotalsCompare(items: seq<Item>, claims: seq<nat>)
    requires |items| == |claims|
    requires forall i :: 0 <= i < |items| ==> claims[i] <= items[i].maxAttempts
    ensures Total(claims) <= TotalAttempts(items)
  {
    if items != [] {
      TotalsCompare(items[..|items| - 1], claims[..|claims| - 1]);
    }
  }

  /** All claims ever made fit in the attempt limits of the rows: workers cannot spin for ever. */
  lemma ClaimsTotalBounded(c: Config, r: Run, n: nat)
    requires IsRun(c, r) && n < |r.states|
    ensures Total(r.states[n].claims) <= TotalAttempts(r.states[n].items)
  {
    ClaimInvAlways(c, r, n);
    var s := r.states[n];
    assert forall i :: 0 <= i < |s.items| ==> Accounted(s.items[i], s.claims[i]);
    TotalsCompare(s.items, s.claims);
  }
}
