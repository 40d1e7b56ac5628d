/**
 Building runs of the execution service. The two pieces every longer run is made of:
 a worker takes a new signal as far as the adapter's answer, and a worker with an
 answer writes the order and acknowledges. No step of them fails.
 */
module ExecScenario {
  import opened Basics
  import opened ExecQueue
  import opened ExecService
  import opened ExecOrders

  ghost predicate Reaches(c: Config, s: State, ts: seq<Step>, t: State)
    decreases |ts|
  {
    if ts == [] then s == t else Can(c, s, ts[0]) && Reaches(c, Do(c, s, ts[0]), ts[1..], t)
  }

  lemma {:induction false} ReachBoth(c: Config, s: State, ts: seq<Step>, m: State, us: seq<Step>, t: State)
    requires Reaches(c, s, ts, m) && Reaches(c, m, us, t)
    ensures Reaches(c, s, ts + us, t)
    decreases |ts|
  {
    hide Do, Can;
    if ts == [] {
      assert ts + us == us;
    } else {
      ReachBoth(c, Do(c, s, ts[0]), ts[1..], m, us, t);
      assert (ts + us)[1..] == ts[1..] + us;
    }
  }

  /** Steps so far, and one more. */
  lemma Then(c: Config, s: State, ts: seq<Step>, m: State, t: Step, s': State) returns (us: seq<Step>)
    requires Reaches(c, s, ts, m) && Can(c, m, t) && Do(c, m, t) == s'
    ensures us == ts + [t] && Reaches(c, s, us, s')
  {
    hide Do, Can;
    assert [t][1..] == [];
    ReachBoth(c, s, ts, m, [t], s');
    us := ts + [t];
  }

  function Last(r: Run): State
    requires r.states != []
  {
    r.states[|r.states| - 1]
  }

  /** A run as many steps longer. */
  lemma GrowAll(c: Config, r: Run, ts: seq<Step>, s: State) returns (longer: Run)
    requires r.states != [] && IsRun(c, r) && Reaches(c, Last(r), ts, s)
    ensures longer.states != [] && IsRun(c, longer) && Last(longer) == s && r.states <= longer.states
    decreases |ts|
  {
    longer := r;
    if ts != [] {
      var next := Run(r.states + [Do(c, Last(r), ts[0])], r.steps + [ts[0]]);
      assert IsRun(c, next) by { hide Do, Can; }
      hide Do, Can, IsRun;
      longer := GrowAll(c, next, ts[1..], s);
    }
  }

  // ── Up to the adapter's answer ──────────────────────────────────────────

  /** The gate is open, the bot trades, and nothing in the tables is as young as the next signal. */
  ghost predicate Trading(c: Config, s: State, bot: nat) {
    && bot in c.policies && Armed(c, s.gate) && bot in s.enabled
    && |s.claims| == |s.items|
    && (forall k :: k in s.signals ==> k < |s.items|)
    && (forall i :: 0 <= i < |s.items| ==> s.items[i].signal < |s.items|)
    && (forall i :: 0 <= i < |s.orders| ==> s.orders[i].cid.signal < |s.items| && s.orders[i].status == FilledRow)
  }

  /** The context of a signal numbered like its row. */
  function Ctx(bot: nat, id: nat): Context {
    Context(id, bot, true, true)
  }

  /** The tables with one more signal, claimed by a worker in some phase. */
  function Working(s: State, w: nat, bot: nat, p: Phase): State
    requires w < |s.workers|
  {
    var id := |s.items|;
    var item := NewItem(id, bot, s.now).(status := Processing, lockedBy := Some(w), lockedAt := s.now);
    s.(signals := s.signals[id := Signal(bot, true)], items := s.items + [item], claims := s.claims + [1], workers := s.workers[w := p])
  }

  /** The same once the adapter has answered. */
  function Answering(c: Config, s: State, w: nat, bot: nat): State
    requires w < |s.workers|
  {
    var id, fixed := |s.items|, FixedOf(c, bot);
    Working(s, w, bot, Answered(id, Ctx(bot, id), fixed)).(
      submissions := s.submissions + [Submission(w, id, Sig(id), bot, fixed)])
  }

  lemma ToClaimed(c: Config, s: State, w: nat, bot: nat) returns (ts: seq<Step>)
    requires Trading(c, s, bot) && w < |s.workers| && s.workers[w].Idle?
    ensures Reaches(c, s, ts, Working(s, w, bot, Claimed(|s.items|)))
  {
    var id := |s.items|;
    var s1 := s.(signals := s.signals[id := Signal(bot, true)]);
    ts := Then(c, s, [], s, Accept(id, bot, true), s1);
    var s2 := s1.(items := s.items + [NewItem(id, bot, s.now)], claims := s.claims + [0]);
    assert !HasSignal(s1.items, id);
    ts := Then(c, s, ts, s1, Enqueue(id), s2);
    var s3 := Working(s, w, bot, Claimed(id));
    assert Claim(s2.items, id, w, s.now) == s3.items;
    assert s2.claims[id := 1] == s3.claims;
    ts := Then(c, s, ts, s2, TakeItem(w, id), s3);
  }

  lemma ToOpen(c: Config, s: State, w: nat, bot: nat) returns (ts: seq<Step>)
    requires Trading(c, s, bot) && w < |s.workers|
    ensures Reaches(c, Working(s, w, bot, Claimed(|s.items|)), ts, Working(s, w, bot, Open(|s.items|, Ctx(bot, |s.items|))))
  {
    var id := |s.items|;
    var s3 := Working(s, w, bot, Claimed(id));
    var s4 := Working(s, w, bot, Loaded(id, Ctx(bot, id)));
    assert ContextOf(c, s3, id) == Some(Ctx(bot, id));
    assert s3.workers[w := s4.workers[w]] == s4.workers;
    ts := Then(c, s3, [], s3, Load(w), s4);
    var s5 := Working(s, w, bot, Open(id, Ctx(bot, id)));
    assert s4.workers[w := s5.workers[w]] == s5.workers;
    ts := Then(c, s3, ts, s4, ReadGate(w, true, true), s5);
  }

  /** The caps pass the fixed notional as long as it fits. */
  lemma CapsPass(c: Config, s: State, ctx: Context)
    requires ValidConfig(c) && ctx.bot in c.policies && Used(s.orders, ctx.bot, Today(s)) + FixedOf(c, ctx.bot) <= c.policies[ctx.bot].dailyCap
    requires forall i :: 0 <= i < |s.orders| ==> s.orders[i].status == FilledRow
    ensures CapsOf(c, s, ctx) == Accepted(FixedOf(c, ctx.bot))
  {
    assert ValidPolicy(c.policies[ctx.bot]);
    TerminalRowsAreNotOpen(s.orders, ctx.bot);
    hide Used;
  }

  lemma ToAnswered(c: Config, s: State, w: nat, bot: nat) returns (ts: seq<Step>)
    requires ValidConfig(c) && Trading(c, s, bot) && w < |s.workers|
    requires Used(s.orders, bot, Today(s)) + FixedOf(c, bot) <= c.policies[bot].dailyCap
    ensures Reaches(c, Working(s, w, bot, Open(|s.items|, Ctx(bot, |s.items|))), ts, Answering(c, s, w, bot))
  {
    var id, fixed := |s.items|, FixedOf(c, bot);
    var s5 := Working(s, w, bot, Open(id, Ctx(bot, id)));
    var s6 := Working(s, w, bot, Sized(id, Ctx(bot, id), fixed));
    CapsPass(c, s5, Ctx(bot, id));
    assert s5.workers[w := s6.workers[w]] == s6.workers;
    hide CapsOf;
    ts := Then(c, s5, [], s5, CheckCaps(w), s6);
    var s7 := Answering(c, s, w, bot);
    assert s6.workers[w := s7.workers[w]] == s7.workers;
    ts := Then(c, s5, ts, s6, Submit(w, true), s7);
  }

  /** A worker takes a new signal through gate and caps up to the adapter's answer. */
  lemma ToAnswer(c: Config, s: State, w: nat, bot: nat) returns (ts: seq<Step>)
    requires ValidConfig(c) && Trading(c, s, bot) && w < |s.workers| && s.workers[w].Idle?
    requires Used(s.orders, bot, Today(s)) + FixedOf(c, bot) <= c.policies[bot].dailyCap
    ensures Reaches(c, s, ts, Answering(c, s, w, bot)) && Trading(c, Answering(c, s, w, bot), bot)
  {
    var id := |s.items|;
    ts := ToClaimed(c, s, w, bot);
    var us := ToOpen(c, s, w, bot);
    var vs := ToAnswered(c, s, w, bot);
    assert Trading(c, Answering(c, s, w, bot), bot);
    hide Reaches, Working, Answering, Trading, ValidConfig, Used, Today, FixedOf;
    var s3, s5 := Working(s, w, bot, Claimed(id)), Working(s, w, bot, Open(id, Ctx(bot, id)));
    ReachBoth(c, s, ts, s3, us, s5);
    ReachBoth(c, s, ts + us, s5, vs, Answering(c, s, w, bot));
    ts := ts + us + vs;
  }

  // ── The order row ───────────────────────────────────────────────────────

  function RowOf(s: State, p: Phase): Order
    requires p.Answered?
  {
    Order(Sig(p.ctx.signal), p.ctx.bot, FilledRow, p.notional, Today(s))
  }

  /** The order is written, the item acknowledged, the worker idle. */
  function Written(s: State, w: nat): State
    requires w < |s.workers| && s.workers[w].Answered?
  {
    s.(orders := s.orders + [RowOf(s, s.workers[w])], items := Ack(s.items, s.workers[w].item, w), workers := s.workers[w := Idle])
  }

  /** A worker with an answer writes the order; the usage grows by its notional. */
  lemma ToWritten(c: Config, s: State, w: nat) returns (ts: seq<Step>)
    requires w < |s.workers| && s.workers[w].Answered? && !HasOrder(s.orders, Sig(s.workers[w].ctx.signal))
    ensures Reaches(c, s, ts, Written(s, w))
  {
    var p := s.workers[w];
    var s1 := s.(orders := s.orders + [RowOf(s, p)], workers := s.workers[w := Recorded(p.item)]);
    ts := Then(c, s, [], s, WriteFilled(w), s1);
    var s2 := s1.(items := Ack(s.items, p.item, w), workers := s.workers[w := Closing(p.item)]);
    assert s1.workers[w := Closing(p.item)] == s2.workers;
    ts := Then(c, s, ts, s1, AckItem(w), s2);
    assert s2.workers[w := Idle] == Written(s, w).workers;
    ts := Then(c, s, ts, s2, Finish(w), Written(s, w));
  }

  lemma WrittenTrades(c: Config, s: State, w: nat, bot: nat)
    requires Trading(c, s, bot) && w < |s.workers| && s.workers[w].Answered? && s.workers[w].ctx.signal < |s.items|
    ensures Trading(c, Written(s, w), bot)
  {}
}
