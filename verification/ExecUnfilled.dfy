/**
 Submissions without a filled row. An adapter call comes before the order row, so a
 worker that stops in between leaves a submission the usage does not count. What
 becomes of it: a later claim may record a no-op or a rejection instead.
 */
module ExecUnfilled {
  import opened Basics
  import opened ExecQueue
  import opened ExecService
  import opened ExecClaims
  import opened ExecOrders
  import opened ExecCaps
  import opened ExecScenario
  import opened ExecCapReached

  /** The signal's row, if there is one with this key, was written without a submission of its writer. */
  ghost predicate HasUnfilled(orders: seq<Order>, cid: ClientId) {
    exists j :: 0 <= j < |orders| && orders[j].cid == cid && orders[j].status != FilledRow
  }

  ghost predicate HasFilled(orders: seq<Order>, cid: ClientId) {
    exists j :: 0 <= j < |orders| && orders[j].cid == cid && orders[j].status == FilledRow
  }

  /** Submissions of an item, claims still open and a row without a submission each use up a claim of their own. */
  ghost predicate ClaimsCover(s: State, i: nat) {
    i < |s.items| && i < |s.claims| ==>
      Submitted(s.submissions, i) + WaitingFor(s.workers, i) + One(HasUnfilled(s.orders, Sig(s.items[i].signal))) <= s.claims[i]
  }

  // ── Steps ───────────────────────────────────────────────────────────────

  /** Only a no-op or a rejection of the item itself makes an unfilled row. */
  lemma UnfilledComesFrom(c: Config, s: State, t: Step, i: nat)
    requires Can(c, s, t) && Linked(c, s) && PhasesLinked(c, s) && i < |s.items|
    requires HasUnfilled(Do(c, s, t).orders, Sig(s.items[i].signal))
    ensures HasUnfilled(s.orders, Sig(s.items[i].signal)) || ((t.WriteNoop? || t.WriteRejected?) && s.workers[t.w].item == i)
  {
    RowsAppendOnly(c, s, t);
    var cid := Sig(s.items[i].signal);
    var j :| 0 <= j < |Do(c, s, t).orders| && Do(c, s, t).orders[j].cid == cid && Do(c, s, t).orders[j].status != FilledRow;
    if j < |s.orders| {
      assert s.orders[j] == Do(c, s, t).orders[j];
    } else if t.WriteNoop? || t.WriteRejected? || t.WriteFilled? {
      assert PhaseLinked(c, s, s.workers[t.w]);
    }
  }

  lemma UnfilledStep(c: Config, s: State, t: Step, i: nat)
    requires Can(c, s, t) && Linked(c, s) && PhasesLinked(c, s) && i < |s.items|
    ensures i < |Do(c, s, t).items| && Do(c, s, t).items[i].signal == s.items[i].signal
    ensures One(HasUnfilled(Do(c, s, t).orders, Sig(s.items[i].signal)))
         <= One(HasUnfilled(s.orders, Sig(s.items[i].signal))) + One((t.WriteNoop? || t.WriteRejected?) && s.workers[t.w].item == i)
  {
    TablesOnlyGrow(c, s, t);
    hide Do, Can, HasUnfilled;
    if HasUnfilled(Do(c, s, t).orders, Sig(s.items[i].signal)) {
      UnfilledComesFrom(c, s, t, i);
    }
  }

  lemma ActorCovers(c: Config, s: State, t: Step, w: nat, i: nat)
    requires Can(c, s, t) && |s.claims| == |s.items| && i < |s.items| && Actor(t) == Some(w)
    ensures i < |Do(c, s, t).claims|
    ensures One(Waiting(Do(c, s, t).workers[w], i)) + One((t.Submit? || t.WriteNoop? || t.WriteRejected?) && s.workers[w].item == i)
         <= One(Waiting(s.workers[w], i)) + Do(c, s, t).claims[i] - s.claims[i]
  {}

  lemma CoverKept(c: Config, s: State, t: Step, i: nat)
    requires Can(c, s, t) && |s.claims| == |s.items| && i < |s.items|
    requires Linked(c, s) && PhasesLinked(c, s) && ClaimsCover(s, i)
    ensures ClaimsCover(Do(c, s, t), i)
  {
    var s' := Do(c, s, t);
    hide Do, Can, HasUnfilled, Waiting, Linked, PhasesLinked;
    OnlyTheActorMoves(c, s, t);
    OnlySubmitCalls(c, s, t);
    UnfilledStep(c, s, t, i);
    match Actor(t)
    case None =>
      ClaimsElsewhere(c, s, t);
    case Some(w) =>
      ActorCovers(c, s, t, w, i);
      assert t.WriteNoop? || t.WriteRejected? ==> t.w == w;
      WaitingMoved(s.workers, w, s'.workers[w], i);
      if t.Submit? {
        SubmittedAppended(s.submissions, CallOf(s.workers[w], w), i);
      }
  }

  ghost predicate HasItem(s: State, cid: ClientId) {
    exists i :: 0 <= i < |s.items| && cid == Sig(s.items[i].signal)
  }

  /** Every row's signal has an item. */
  ghost predicate RowsHaveItems(s: State) {
    forall j :: 0 <= j < |s.orders| ==> HasItem(s, s.orders[j].cid)
  }

  lemma RowsHaveItemsKept(c: Config, s: State, t: Step)
    requires Can(c, s, t) && PhasesLinked(c, s) && RowsHaveItems(s)
    ensures RowsHaveItems(Do(c, s, t))
  {
    var s' := Do(c, s, t);
    RowsAppendOnly(c, s, t);
    TablesOnlyGrow(c, s, t);
    forall j | 0 <= j < |s'.orders|
      ensures HasItem(s', s'.orders[j].cid)
    {
      if j < |s.orders| {
        assert s'.orders[j] == s.orders[j] && HasItem(s, s.orders[j].cid);
        var i :| 0 <= i < |s.items| && s.orders[j].cid == Sig(s.items[i].signal);
        assert s'.items[i].signal == s.items[i].signal;
      } else if t.WriteNoop? || t.WriteRejected? || t.WriteFilled? {
        var p := s.workers[t.w];
        assert PhaseLinked(c, s, p);
        assert s'.items[p.item].signal == p.ctx.signal;
      }
    }
  }

  /** A new item has no row, no claim and no submission. */
  lemma NewItemCovered(c: Config, s: State, t: Step)
    requires Can(c, s, t) && |s.claims| == |s.items| && PhasesLinked(c, s) && SameKey(s) && RowsHaveItems(s)
    ensures ClaimsCover(Do(c, s, t), |s.items|)
  {
    var s' := Do(c, s, t);
    if |s'.items| > |s.items| {
      assert t.Enqueue? && s'.submissions == s.submissions && s'.workers == s.workers && s'.orders == s.orders;
      assert !HasItem(s, Sig(t.signal));
      NoCallsYet(s.submissions, |s.items|);
      NoneWaiting(s.workers, |s.items|);
    }
  }

  // ── Over whole runs ─────────────────────────────────────────────────────

  lemma {:induction false} CoverAlways(c: Config, r: Run, n: nat, i: nat)
    requires IsRun(c, r) && n < |r.states|
    ensures RowsHaveItems(r.states[n]) && ClaimsCover(r.states[n], i)
  {
    if n > 0 {
      var s, t := r.states[n - 1], r.steps[n - 1];
      CoverAlways(c, r, n - 1, i);
      ClaimInvAlways(c, r, n - 1);
      StepAt(c, r, n - 1);
      RowsHaveItemsKept(c, s, t);
      assert |Do(c, s, t).items| <= |s.items| + 1;
      if i < |s.items| {
        CoverKept(c, s, t, i);
      } else if i == |s.items| && |Do(c, s, t).items| > |s.items| {
        NewItemCovered(c, s, t);
      }
    }
  }

  /**
   A signal that was submitted has a filled row; or a row that says no-op or rejected,
   and then it was claimed at least twice; or no row, and then its item is not done.
   */
  lemma SubmittedComesTo(c: Config, r: Run, n: nat, i: nat)
    requires IsRun(c, r) && n < |r.states| && i < |r.states[n].items| && Submitted(r.states[n].submissions, i) > 0
    ensures i < |r.states[n].claims|
    ensures var s := r.states[n]; var cid := Sig(s.items[i].signal);
      || (HasFilled(s.orders, cid) && !HasUnfilled(s.orders, cid))
      || (HasUnfilled(s.orders, cid) && !HasFilled(s.orders, cid) && s.claims[i] >= 2)
      || (!HasOrder(s.orders, cid) && s.items[i].status != Done)
  {
    CoverAlways(c, r, n, i);
    ClaimInvAlways(c, r, n);
    OrderInvAlways(c, r, n);
    var s := r.states[n];
    var cid := Sig(s.items[i].signal);
    if HasOrder(s.orders, cid) {
      var j :| 0 <= j < |s.orders| && s.orders[j].cid == cid;
    } else {
      assert !Finished(s, i);
    }
  }

  // ── It happens ──────────────────────────────────────────────────────────

  /** The lease expired and was swept while the gate was closed. */
  function Swept(c: Config, s: State): State
    requires |s.workers| > 0
  {
    var now := s.now + c.stale + 1;
    s.(now := now, workers := s.workers[0 := Idle], items := Sweep(s.items, now, c.stale), gate := s.gate.(dbArmed := false))
  }

  /** One item, submitted and never recorded, its worker about to acknowledge nothing. */
  ghost predicate Sent(c: Config, s: State, bot: nat) {
    && |s.workers| == 1 && |s.items| == 1 && |s.claims| == 1 && s.orders == []
    && s.items[0] == NewItem(0, bot, 0).(status := Processing, lockedBy := Some(0), lockedAt := 0) && s.now == 0
    && 0 in s.signals && s.signals[0].bot == bot && bot in c.policies
    && |s.submissions| == 1 && s.submissions[0].item == 0
  }

  lemma ToSwept(c: Config, s: State, bot: nat) returns (ts: seq<Step>)
    requires Sent(c, s, bot)
    ensures Reaches(c, s, ts, Swept(c, s))
  {
    var now := s.now + c.stale + 1;
    var s1 := s.(workers := s.workers[0 := Idle]);
    ts := Then(c, s, [], s, Crash(0), s1);
    var s2 := s1.(now := now);
    ts := Then(c, s, ts, s1, Tick(now), s2);
    var s3 := s2.(items := Sweep(s.items, now, c.stale));
    ts := Then(c, s, ts, s2, SweepItems, s3);
    ts := Then(c, s, ts, s3, Arm(false), Swept(c, s));
  }

  lemma ToBlocked(c: Config, s: State, bot: nat) returns (ts: seq<Step>, t: State)
    requires Sent(c, s, bot)
    ensures Reaches(c, Swept(c, s), ts, t)
    ensures |t.workers| == 1 && t.workers[0].Blocked? && t.workers[0].ctx.signal == 0 && t.workers[0].ctx.bot == bot
    ensures t.orders == [] && t.submissions == s.submissions && |t.items| == 1 && t.items[0].signal == 0
  {
    var s4 := Swept(c, s);
    assert s4.items[0] == Failed(s.items[0], s4.now);
    var s5 := Do(c, s4, TakeItem(0, 0));
    ts := Then(c, s4, [], s4, TakeItem(0, 0), s5);
    var ctx := ContextOf(c, s5, 0).value;
    var s6 := Move(s5, 0, Loaded(0, ctx));
    ts := Then(c, s4, ts, s5, Load(0), s6);
    t := Move(s6, 0, Blocked(0, ctx));
    ts := Then(c, s4, ts, s6, ReadGate(0, true, true), t);
  }

  /** A submission whose signal ends up with a no-op row: the usage never counts it. */
  lemma SubmittedNotCounted(c: Config, bot: nat) returns (r: Run)
    requires ValidConfig(c) && CanArm(c) && bot in c.policies
    ensures r.states != [] && IsRun(c, r)
    ensures var s := Last(r);
      && |s.items| == 1 && Submitted(s.submissions, 0) == 1 && HasUnfilled(s.orders, Sig(s.items[0].signal))
      && forall day :: Used(s.orders, bot, day) == 0.0
  {
    var s := Start(bot, 1);
    r := Run([s], []);
    assert IsRun(c, r);
    StartIs(c, bot, 1);
    assert ValidPolicy(c.policies[bot]);
    var ts := ToAnswer(c, s, 0, bot);
    var m := Answering(c, s, 0, bot);
    assert Sent(c, m, bot);
    var us := ToSwept(c, m, bot);
    var vs, b := ToBlocked(c, m, bot);
    hide Reaches, IsRun, Start, Answering, Swept;
    r := GrowAll(c, r, ts, m);
    r := GrowAll(c, r, us, Swept(c, m));
    r := GrowAll(c, r, vs, b);
    r := NoopEnds(c, r, bot);
  }

  lemma NoopEnds(c: Config, r: Run, bot: nat) returns (longer: Run)
    requires r.states != [] && IsRun(c, r)
    requires var t := Last(r);
      && |t.workers| == 1 && t.workers[0].Blocked? && t.workers[0].ctx.signal == 0 && t.workers[0].ctx.bot == bot
      && t.orders == [] && |t.submissions| == 1 && t.submissions[0].item == 0 && |t.items| == 1 && t.items[0].signal == 0
    ensures longer.states != [] && IsRun(c, longer)
    ensures var s := Last(longer);
      && |s.items| == 1 && Submitted(s.submissions, 0) == 1 && HasUnfilled(s.orders, Sig(s.items[0].signal))
      && forall day :: Used(s.orders, bot, day) == 0.0
  {
    var t := Last(r);
    var u := Do(c, t, WriteNoop(0));
    assert |u.orders| == 1 && u.orders[0].cid == Sig(0) && u.orders[0].status == NoopRow;
    assert t.submissions[..0] == [] && u.orders[..0] == [];
    var ts := Then(c, t, [], t, WriteNoop(0), u);
    hide Reaches, IsRun, Do;
    longer := GrowAll(c, r, ts, u);
  }
}
