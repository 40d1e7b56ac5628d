/**
 The timing rules are exact. Without the first there is a run in which a settled trade comes
 back: the boot resolver fails a trade that its worker, within a visibility timeout
 above the threshold, still writes; or an update that was applied is answered with an
 error, and its fallback takes a cancelled trade back to unknown. Without the second,
 an order can show up after its trade was failed for not being there.
 */
module TradeTimingNeeded {
  import opened Basics
  import opened TradeStore
  import opened TradeProtocol
  import opened TradeScenario
  import opened TradeTiming
  import opened TradeTruth

  // ── An approved exit, up to the call of the exchange ────────────────────

  const KEY := Key(0, 0)

  const NOBODY := State(0, [], map[], map[], {}, map[], map[], map[], map[], map[], [], [Idle], [Resting], [])

  function Row(): Trade {
    NewTrade(KEY, 0, Sell, None, 0)
  }

  lemma ToHeld(c: Config) returns (r: Run)
    ensures r.states != [] && IsRun(c, r) && Faultless(r.steps)
    ensures Last(r).workers == [Holding(1, 0, 0)] && Last(r).trades == [Row()] && Last(r).now == 0
    ensures Last(r).travelling == map[] && Last(r).placed == map[] && Last(r).resolvers == [Resting]
    ensures Last(r).jobs == map[] && Last(r).queue.Keys == {1}
  {
    var r0 := Run([NOBODY], []);
    assert IsRun(c, r0);
    var r1 := Grow(c, r0, World(SetBot(0, BOT)));
    var s, o := Last(r1), Plan(KEY, Sell, None, 0);
    assert Tradable(c, s, 0, o) && Unheard(c, s, o, 1);
    var ts := ToReserved(c, s, 0, o, 1);
    hide IsRun, Reaches, Tradable, Unheard;
    r := GrowAll(c, r1, ts, RowHeld(c, s, 0, o, 1));
    assert s.workers[0 := Holding(1, 0, 0)] == [Holding(1, 0, 0)];
  }

  lemma ToSent(c: Config) returns (r: Run)
    ensures r.states != [] && IsRun(c, r) && Faultless(r.steps)
    ensures Last(r).workers == [Sent(1, 0, 0)] && Last(r).trades == [Row()] && Last(r).now == 0
    ensures Last(r).travelling == map[0 := 0] && Last(r).placed == map[] && Last(r).resolvers == [Resting]
    ensures Last(r).jobs == map[] && Last(r).queue.Keys == {1}
  {
    var r1 := ToHeld(c);
    hide IsRun;
    var r2 := Grow(c, r1, Worker(0, AuditCreated));
    assert Last(r2).workers == [Cleared(1, 0, 0)];
    r := Grow(c, r2, Worker(0, CreateOrder));
    assert Last(r).workers == [Sent(1, 0, 0)];
  }

  // ── The two ways back ───────────────────────────────────────────────────

  /** A settled row that changed, in some run. */
  ghost predicate ComesBack(c: Config) {
    exists r: Run, m, n :: IsRun(c, r) && 0 <= m <= n < |r.states| && !SettledStay(r.states[m].trades, r.states[n].trades)
  }

  lemma Back(c: Config, r: Run, m: nat, n: nat, before: TradeStatus, after: TradeStatus)
    requires IsRun(c, r) && m <= n < |r.states| && !Stuck(before) && before != after
    requires r.states[m].trades == [Row().(status := before)] && r.states[n].trades == [Row().(status := after)]
    ensures ComesBack(c)
  {
    assert r.states[m].trades[0].status == before;
  }

  /** A visibility timeout above the threshold: the boot resolver fails a trade its worker still writes. */
  lemma SlowWorkerComesBack(c: Config)
    requires c.bootResolver && c.visibility > THRESHOLD
    ensures ComesBack(c)
  {
    var r1 := ToSent(c);
    hide IsRun;
    var r2 := Grow(c, r1, Worker(0, AnswerLost));
    assert Last(r2).workers == [Fetching(1, 0, 0)];
    var r3 := Grow(c, r2, Worker(0, FetchFailed));
    assert Last(r3).workers == [Uncertain(1, 0)];
    var r4 := Grow(c, r3, World(Tick(61)));
    var r5 := Grow(c, r4, Resolving(0, Select(0, false)));
    assert Last(r5).resolvers == [Selected(0)];
    var r6 := Grow(c, r5, Resolving(0, LookNull));
    assert Last(r6).resolvers == [Looked(0, NotFound)];
    var r7 := Grow(c, r6, Resolving(0, Update(true)));
    assert Last(r7).trades == [Row().(status := Failed)];
    assert Last(r7).workers == [Uncertain(1, 0)];
    var r8 := Grow(c, r7, Worker(0, WriteUncertain(true)));
    assert Last(r8).trades == [Row().(status := Unknown)];
    hide Do, Can;
    Back(c, r8, |r7.states| - 1, |r8.states| - 1, Failed, Unknown);
  }

  lemma ToCancelled(c: Config) returns (r: Run)
    ensures r.states != [] && IsRun(c, r)
    ensures Last(r).workers == [Answered(1, 0, 0, Cancelled)] && Last(r).trades == [Row()] && Last(r).now == 0
  {
    var r1 := ToSent(c);
    hide IsRun;
    var r2 := Grow(c, r1, World(Arrive(0, Cancelled)));
    r := Grow(c, r2, Worker(0, OrderReturned(Cancelled)));
    assert Last(r).workers == [Answered(1, 0, 0, Cancelled)];
  }

  /** An update applied but answered with an error: its fallback takes a cancelled trade back. */
  lemma LostAnswerComesBack(c: Config)
    requires c.lossyWrites
    ensures ComesBack(c)
  {
    var r3 := ToCancelled(c);
    hide IsRun;
    var r4 := Grow(c, r3, Worker(0, WriteStatus(true, false)));
    assert Last(r4).workers == [Unwritten(1, 0)];
    assert Last(r4).trades == [Row().(status := Cancelled)];
    var r5 := Grow(c, r4, Worker(0, MarkUnknown(true)));
    assert Last(r5).trades == [Row().(status := Unknown)];
    hide Do, Can;
    Back(c, r5, |r4.states| - 1, |r5.states| - 1, Cancelled, Unknown);
  }

  /** The youngest age at which a resolver looks at a trade: a minute with the boot resolver, else never within the margin of the timeout. */
  lemma CutoffIs(c: Config)
    ensures Cutoff(c) == if !c.bootResolver && c.visibility + 15 > 60 then c.visibility + 15 else 60
    ensures TimingRule(c) <==> !c.lossyWrites && (c.bootResolver ==> c.visibility <= 60)
  {}

  /** Settled trades stay settled in every run exactly under the timing rule. */
  lemma TimingRuleIsExact(c: Config)
    ensures TimingRule(c) <==> !ComesBack(c)
    ensures !c.lossyWrites && (c.bootResolver ==> c.visibility <= 60) <==> !ComesBack(c)
  {
    CutoffIs(c);
    if TimingRule(c) {
      if ComesBack(c) {
        var r: Run, m: int, n: int :| IsRun(c, r) && 0 <= m <= n < |r.states| && !SettledStay(r.states[m].trades, r.states[n].trades);
        hide IsRun;
        SettledForEver(c, r, m, n);
        assert false;
      }
    } else if c.visibility > Cutoff(c) {
      SlowWorkerComesBack(c);
    } else {
      LostAnswerComesBack(c);
    }
  }

  // ── The exchange's lag ──────────────────────────────────────────────────

  /** A trade failed although the exchange holds an order for it that did not fail, in some run. */
  ghost predicate FailsFalsely(c: Config) {
    exists r: Run, n, i :: IsRun(c, r) && 0 <= n < |r.states| && FalselyFailed(r.states[n], i)
  }

  ghost predicate FalselyFailed(s: State, i: int) {
    && 0 <= i < |s.trades| && s.trades[i].status == Failed && s.trades[i].cid in s.placed && s.placed[s.trades[i].cid].status != Failed
  }

  lemma ToLookedUp(c: Config) returns (r: Run)
    ensures r.states != [] && IsRun(c, r) && Last(r).resolvers == [Looked(0, NotFound)] && Last(r).trades == [Row()]
    ensures Last(r).now == Cutoff(c) + 1 && Last(r).travelling == map[0 := 0] && Last(r).placed == map[]
  {
    var r1 := ToSent(c);
    hide IsRun;
    var r2 := Grow(c, r1, World(Tick(Cutoff(c) + 1)));
    var r3 := Grow(c, r2, Resolving(0, Select(0, !c.bootResolver)));
    assert Last(r3).resolvers == [Selected(0)];
    r := Grow(c, r3, Resolving(0, LookNull));
    assert Last(r).resolvers == [Looked(0, NotFound)];
  }

  lemma LateOrderFailsFalsely(c: Config)
    requires c.lag > Cutoff(c)
    ensures FailsFalsely(c)
  {
    var r4 := ToLookedUp(c);
    hide IsRun;
    var r5 := Grow(c, r4, Resolving(0, Update(true)));
    assert Last(r5).trades == [Row().(status := Failed)];
    var r6 := Grow(c, r5, World(Arrive(0, Filled)));
    assert FalselyFailed(Last(r6), 0);
    hide Do, Can, FalselyFailed;
    assert r6.states[|r6.states| - 1] == Last(r6);
  }

  /** Under the timing rule, no trade is falsely failed exactly if an accepted order is visible by the cutoff. */
  lemma VisibilityIsExact(c: Config)
    requires TimingRule(c)
    ensures c.lag <= Cutoff(c) <==> !FailsFalsely(c)
    ensures c.lag <= 60 || (!c.bootResolver && c.lag <= c.visibility + 15) <==> !FailsFalsely(c)
  {
    CutoffIs(c);
    if c.lag > Cutoff(c) {
      LateOrderFailsFalsely(c);
    } else if FailsFalsely(c) {
      var r: Run, n: int, i: int :| IsRun(c, r) && 0 <= n < |r.states| && FalselyFailed(r.states[n], i);
      hide IsRun;
      NoFalseFailure(c, r, n, i);
      assert false;
    }
  }
}
