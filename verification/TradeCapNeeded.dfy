/**
 The daily cap needs the timing rule. Where the rule is broken, a buy that was settled
 without an order gives its share of the cap back, other buys take it, and then the
 settled row comes back as unknown; the day's sum is above the cap.
 */
module TradeCapNeeded {
  import opened Basics
  import opened TradeStore
  import opened TradeProtocol
  import opened TradeScenario
  import opened TradeTiming
  import opened TradeCap

  /** A bot that can buy at all. */
  predicate CanBuy(l: Limits) {
    l.maxOrder.Some? && l.maxOrder.value > 0.0 && l.dailyCap.Some? && l.dailyCap.value > 0.0
  }

  // ── Equal buys that fill the cap ────────────────────────────────────────

  function Times(n: nat, a: real): real {
    n as real * a
  }

  lemma TimesOneMore(n: nat, a: real)
    ensures Times(n + 1, a) == Times(n, a) + a
  {
    assert (n + 1) as real == n as real + 1.0;
  }

  lemma {:induction false} TimesGrow(m: nat, n: nat, a: real)
    requires m <= n && a >= 0.0
    ensures Times(m, a) <= Times(n, a)
    decreases n
  {
    if m < n {
      TimesGrow(m, n - 1, a);
      TimesOneMore(n - 1, a);
    }
  }

  /** So many equal buys within the per-order limit make up the cap. */
  lemma EqualBuys(l: Limits) returns (n: nat, a: real)
    requires CanBuy(l)
    ensures n > 0 && 0.0 < a <= l.maxOrder.value && Times(n, a) == l.dailyCap.value
  {
    var cap, most := l.dailyCap.value, l.maxOrder.value;
    var q := cap / most;
    assert q * most == cap;
    assert q > 0.0;
    n := q.Floor + 1;
    a := cap / n as real;
    assert n as real * a == cap;
    assert n as real > q;
    Smaller(n as real, q, a, most, cap);
  }

  lemma Smaller(n: real, q: real, a: real, most: real, cap: real)
    requires n > q > 0.0 && most > 0.0 && n * a == cap == q * most && cap > 0.0
    ensures 0.0 < a <= most
  {
    PositiveFactor(n, a);
    assert n * (most - a) == (n - q) * most;
    PositiveFactor(n, most - a);
  }

  lemma PositiveFactor(n: real, x: real)
    requires n > 0.0 && n * x > 0.0
    ensures x > 0.0
  {}

  // ── Filling the cap beside a settled row ────────────────────────────────

  /** The worker that will take the first row back to unknown. */
  predicate Returning(p: Phase) {
    p == Uncertain(0, 0) || p == Unwritten(0, 0)
  }

  function NthBuy(bot: nat, i: nat, a: real): Plan {
    Plan(Key(bot, i), Buy, Some(a), i)
  }

  function RowAt(bot: nat, i: nat, a: real, now: nat): Trade {
    NewTrade(Key(bot, i), i, Buy, Some(a), now)
  }

  /** The first row settled without an order, k more reserved, the later workers and signals untouched. */
  ghost predicate Filling(c: Config, s: State, bot: nat, a: real, k: nat) {
    && |s.workers| > k && Returning(s.workers[0]) && InTime(c, s, 0)
    && (forall w :: k < w < |s.workers| ==> s.workers[w] == Idle)
    && bot in s.bots && s.bots[bot] == BOT && s.granted == {}
    && (forall i :: i > k ==> Key(bot, i) !in s.logged && Key(bot, i) !in s.proposals)
    && (forall m :: m > k ==> m !in s.queue)
    && |s.trades| == k + 1 && s.now < DAY
    && s.trades[0].(status := Pending) == RowAt(bot, 0, a, 0) && s.trades[0].status in {Failed, Cancelled}
    && (forall i :: 1 <= i <= k ==> s.trades[i] == RowAt(bot, i, a, s.now))
    && DaySum(s.trades, bot, 0) == Times(k, a) == TotalExposure(s.trades, bot, 0)
  }

  lemma SumsOneMore(trades: seq<Trade>, row: Trade, bot: nat)
    ensures DaySum(trades + [row], bot, 0) == DaySum(trades, bot, 0) + Weight(row, bot, 0)
    ensures TotalExposure(trades + [row], bot, 0) == TotalExposure(trades, bot, 0) + Exposure(row, bot, 0)
  {
    assert (trades + [row])[..|trades|] == trades;
  }

  /** The next buy is free to go, and fits. */
  lemma NextFits(c: Config, s: State, bot: nat, a: real, k: nat)
    requires Filling(c, s, bot, a, k) && |s.workers| > k + 1 && a > 0.0
    requires var l := LimitsOf(c, bot); CanBuy(l) && a <= l.maxOrder.value && Times(k, a) + a <= l.dailyCap.value
    ensures Tradable(c, s, k + 1, NthBuy(bot, k + 1, a)) && Unheard(c, s, NthBuy(bot, k + 1, a), k + 1)
  {
    assert forall i :: 0 <= i < |s.trades| ==>
      s.trades[i].key == Key(bot, i) && s.trades[i].cid == i && !Blocking(s.trades[i], bot, s.now - THRESHOLD);
    assert DayStart(s.now) == 0;
    hide DaySum, TotalExposure, Times, DayStart;
    assert !HasKey(s.trades, Key(bot, k + 1)) && !HasCid(s.trades, k + 1);
    assert !BotBlocked(s, bot);
  }

  /** With it reserved, one more is filled in. */
  lemma NextFilled(c: Config, s: State, bot: nat, a: real, k: nat)
    requires Filling(c, s, bot, a, k) && |s.workers| > k + 1 && a > 0.0
    ensures Filling(c, RowHeld(c, s, k + 1, NthBuy(bot, k + 1, a), k + 1), bot, a, k + 1)
  {
    var t := RowHeld(c, s, k + 1, NthBuy(bot, k + 1, a), k + 1);
    var row := RowAt(bot, k + 1, a, s.now);
    assert t.trades == s.trades + [row];
    SumsOneMore(s.trades, row, bot);
    TimesOneMore(k, a);
    assert Weight(row, bot, 0) == a == Exposure(row, bot, 0);
    hide DaySum, TotalExposure, Times, Weight, Exposure;
  }

  lemma FillMany(c: Config, s: State, bot: nat, a: real, k: nat) returns (ts: seq<Step>, t: State)
    requires Filling(c, s, bot, a, 0) && |s.workers| > k && a > 0.0
    requires var l := LimitsOf(c, bot); CanBuy(l) && a <= l.maxOrder.value && Times(k, a) <= l.dailyCap.value
    ensures Reaches(c, s, ts, t) && Filling(c, t, bot, a, k) && |t.workers| == |s.workers|
    decreases k
  {
    ts, t := [], s;
    if k > 0 {
      TimesOneMore(k - 1, a);
      ts, t := FillMany(c, s, bot, a, k - 1);
      NextFits(c, t, bot, a, k - 1);
      NextFilled(c, t, bot, a, k - 1);
      hide Filling, Tradable, Unheard, Reaches, Times;
      var o := NthBuy(bot, k, a);
      var us := ToReserved(c, t, k, o, k);
      ReachBoth(c, s, ts, t, us, RowHeld(c, t, k, o, k));
      ts, t := ts + us, RowHeld(c, t, k, o, k);
    }
  }

  /** The cap is exceeded in some state of some run. */
  ghost predicate CapExceeded(c: Config, bot: nat, cap: real) {
    exists r: Run, n :: IsRun(c, r) && 0 <= n < |r.states| && !CapHolds(r.states[n], bot, cap)
  }

  /** The step that takes the first row back. */
  function Back(p: Phase): WorkerStep {
    if p.Uncertain? then WriteUncertain(true) else MarkUnknown(true)
  }

  lemma ComesBackOver(c: Config, s: State, bot: nat, a: real, k: nat)
    requires Filling(c, s, bot, a, k) && a > 0.0
    ensures Can(c, s, Worker(0, Back(s.workers[0])))
    ensures TotalExposure(Do(c, s, Worker(0, Back(s.workers[0]))).trades, bot, 0) == Times(k + 1, a)
  {
    var t := Do(c, s, Worker(0, Back(s.workers[0])));
    var row := s.trades[0].(status := Unknown);
    assert t.trades == s.trades[0 := row];
    ExposureRewritten(s.trades, 0, row, bot, 0);
    TimesOneMore(k, a);
    hide Times, TotalExposure;
  }

  /** From a settled row about to come back, the cap is exceeded. */
  lemma Exceeds(c: Config, r: Run, bot: nat, a: real, k: nat)
    requires r.states != [] && IsRun(c, r) && Filling(c, Last(r), bot, a, 0) && |Last(r).workers| > k && a > 0.0
    requires var l := LimitsOf(c, bot); CanBuy(l) && a <= l.maxOrder.value && Times(k, a) == l.dailyCap.value
    ensures CapExceeded(c, bot, LimitsOf(c, bot).dailyCap.value)
  {
    var ts, t := FillMany(c, Last(r), bot, a, k);
    hide IsRun, Reaches;
    var r1 := GrowAll(c, r, ts, t);
    ComesBackOver(c, t, bot, a, k);
    TimesOneMore(k, a);
    hide Filling, Times, Do, Can, TotalExposure;
    var r2 := Grow(c, r1, Worker(0, Back(t.workers[0])));
    var n := |r2.states| - 1;
    assert r2.states[n] == Last(r2);
    assert !CapHolds(r2.states[n], bot, LimitsOf(c, bot).dailyCap.value);
  }

  // ── A settled row about to come back ────────────────────────────────────

  function Nobody(bot: nat, workers: nat): State {
    State(0, [], map[], map[], {}, map[], map[], map[], map[], map[], [], seq(workers, _ => Idle), [Resting], [])
  }

  /** The first buy, its row in the first worker's hands. */
  ghost predicate FirstHeld(s: State, bot: nat, a: real, workers: nat, p: Phase) {
    && |s.workers| == workers > 0 && s.workers[0] == p && (forall w :: 0 < w < workers ==> s.workers[w] == Idle)
    && s.bots == map[bot := BOT] && s.granted == {} && s.resolvers == [Resting] && s.placed == map[]
    && s.logged.Keys == {Key(bot, 0)} && s.proposals.Keys == {Key(bot, 0)} && s.queue.Keys == {0}
    && s.trades == [RowAt(bot, 0, a, 0)] && s.now == 0
  }

  function OnlyBot(bot: nat, workers: nat): State {
    Nobody(bot, workers).(bots := map[bot := BOT])
  }

  lemma FirstFits(c: Config, bot: nat, a: real, workers: nat)
    requires workers > 0 && a > 0.0
    requires var l := LimitsOf(c, bot); CanBuy(l) && a <= l.maxOrder.value && a <= l.dailyCap.value
    ensures Tradable(c, OnlyBot(bot, workers), 0, NthBuy(bot, 0, a)) && Unheard(c, OnlyBot(bot, workers), NthBuy(bot, 0, a), 0)
  {}

  lemma FirstIsHeld(c: Config, bot: nat, a: real, workers: nat)
    requires workers > 0
    ensures var s := RowHeld(c, OnlyBot(bot, workers), 0, NthBuy(bot, 0, a), 0);
      FirstHeld(s, bot, a, workers, Holding(0, 0, 0)) && s.travelling == map[]
  {}

  lemma ToBot(c: Config, bot: nat, workers: nat) returns (r: Run)
    ensures r.states != [] && IsRun(c, r) && Last(r) == OnlyBot(bot, workers)
  {
    var r0 := Run([Nobody(bot, workers)], []);
    assert IsRun(c, r0);
    r := Grow(c, r0, World(SetBot(bot, BOT)));
  }

  lemma ToFirst(c: Config, bot: nat, a: real, workers: nat) returns (r: Run)
    requires workers > 0 && a > 0.0
    requires var l := LimitsOf(c, bot); CanBuy(l) && a <= l.maxOrder.value && a <= l.dailyCap.value
    ensures r.states != [] && IsRun(c, r) && FirstHeld(Last(r), bot, a, workers, Holding(0, 0, 0)) && Last(r).travelling == map[]
  {
    var s, o := OnlyBot(bot, workers), NthBuy(bot, 0, a);
    FirstFits(c, bot, a, workers);
    FirstIsHeld(c, bot, a, workers);
    assert |s.workers| == workers;
    hide IsRun, Reaches, Tradable, Unheard, FirstHeld, RowHeld, OnlyBot;
    r := ToBot(c, bot, workers);
    var ts := ToReserved(c, s, 0, o, 0);
    r := GrowAll(c, r, ts, RowHeld(c, s, 0, o, 0));
  }

  lemma ToFirstSent(c: Config, bot: nat, a: real, workers: nat) returns (r: Run)
    requires workers > 0 && a > 0.0
    requires var l := LimitsOf(c, bot); CanBuy(l) && a <= l.maxOrder.value && a <= l.dailyCap.value
    ensures r.states != [] && IsRun(c, r) && FirstHeld(Last(r), bot, a, workers, Sent(0, 0, 0)) && Last(r).travelling == map[0 := 0]
  {
    var r1 := ToFirst(c, bot, a, workers);
    hide IsRun;
    var r2 := Grow(c, r1, Worker(0, AuditCreated));
    assert FirstHeld(Last(r2), bot, a, workers, Cleared(0, 0, 0));
    r := Grow(c, r2, Worker(0, CreateOrder));
  }

  /** What settles the first row leaves this. */
  lemma Settled(c: Config, s: State, bot: nat, a: real, workers: nat)
    requires |s.workers| == workers > 0 && Returning(s.workers[0]) && (forall w :: 0 < w < workers ==> s.workers[w] == Idle)
    requires s.bots == map[bot := BOT] && s.granted == {}
    requires s.logged.Keys == {Key(bot, 0)} && s.proposals.Keys == {Key(bot, 0)} && s.queue.Keys == {0}
    requires |s.trades| == 1 && s.trades[0].(status := Pending) == RowAt(bot, 0, a, 0) && s.trades[0].status in {Failed, Cancelled}
    requires s.now < DAY && s.now <= c.visibility
    ensures Filling(c, s, bot, a, 0)
  {
    assert s.trades[..0] == [];
    forall i | i > 0
      ensures Key(bot, i) !in s.logged && Key(bot, i) !in s.proposals
    {
      assert Key(bot, i) !in s.logged.Keys && Key(bot, i) !in s.proposals.Keys;
    }
    forall m | m > 0
      ensures m !in s.queue
    {
      assert m !in s.queue.Keys;
    }
  }

  lemma SlowWorkerFrees(c: Config, bot: nat, a: real, workers: nat) returns (r: Run)
    requires workers > 0 && a > 0.0 && c.bootResolver && c.visibility > THRESHOLD
    requires var l := LimitsOf(c, bot); CanBuy(l) && a <= l.maxOrder.value && a <= l.dailyCap.value
    ensures r.states != [] && IsRun(c, r) && Filling(c, Last(r), bot, a, 0) && |Last(r).workers| == workers
  {
    var r4 := ToUncertain(c, bot, a, workers);
    hide IsRun;
    var r5 := Grow(c, r4, World(Tick(61)));
    var r6 := Grow(c, r5, Resolving(0, Select(0, false)));
    assert Last(r6).resolvers == [Selected(0)];
    var r7 := Grow(c, r6, Resolving(0, LookNull));
    assert Last(r7).resolvers == [Looked(0, NotFound)];
    r := Grow(c, r7, Resolving(0, Update(true)));
    assert Last(r).trades == [RowAt(bot, 0, a, 0).(status := Failed)];
    Settled(c, Last(r), bot, a, workers);
  }

  lemma ToUncertain(c: Config, bot: nat, a: real, workers: nat) returns (r: Run)
    requires workers > 0 && a > 0.0
    requires var l := LimitsOf(c, bot); CanBuy(l) && a <= l.maxOrder.value && a <= l.dailyCap.value
    ensures r.states != [] && IsRun(c, r) && FirstHeld(Last(r), bot, a, workers, Uncertain(0, 0))
  {
    var r1 := ToFirstSent(c, bot, a, workers);
    hide IsRun;
    var r2 := Grow(c, r1, Worker(0, AnswerLost));
    assert FirstHeld(Last(r2), bot, a, workers, Fetching(0, 0, 0));
    r := Grow(c, r2, Worker(0, FetchFailed));
  }

  lemma LostAnswerFrees(c: Config, bot: nat, a: real, workers: nat) returns (r: Run)
    requires workers > 0 && a > 0.0 && c.lossyWrites
    requires var l := LimitsOf(c, bot); CanBuy(l) && a <= l.maxOrder.value && a <= l.dailyCap.value
    ensures r.states != [] && IsRun(c, r) && Filling(c, Last(r), bot, a, 0) && |Last(r).workers| == workers
  {
    var r1 := ToFirstSent(c, bot, a, workers);
    hide IsRun;
    var r2 := Grow(c, r1, World(Arrive(0, Cancelled)));
    var r3 := Grow(c, r2, Worker(0, OrderReturned(Cancelled)));
    r := Grow(c, r3, Worker(0, WriteStatus(true, false)));
    assert Last(r).trades == [RowAt(bot, 0, a, 0).(status := Cancelled)];
    Settled(c, Last(r), bot, a, workers);
  }

  /** For every bot that can buy: its daily cap holds in all runs exactly under the timing rule. */
  lemma CapNeedsTheRule(c: Config, bot: nat)
    requires CanBuy(LimitsOf(c, bot))
    ensures TimingRule(c) <==> !CapExceeded(c, bot, LimitsOf(c, bot).dailyCap.value)
  {
    var l := LimitsOf(c, bot);
    if TimingRule(c) {
      if CapExceeded(c, bot, l.dailyCap.value) {
        var r: Run, n: int :| IsRun(c, r) && 0 <= n < |r.states| && !CapHolds(r.states[n], bot, l.dailyCap.value);
        hide IsRun;
        DailyCapHolds(c, r, n, bot, l.dailyCap.value);
        assert false;
      }
    } else {
      var n, a := EqualBuys(l);
      TimesGrow(1, n, a);
      assert Times(1, a) == a;
      hide Times, IsRun;
      var r;
      if c.visibility > Cutoff(c) {
        r := SlowWorkerFrees(c, bot, a, n + 1);
      } else {
        r := LostAnswerFrees(c, bot, a, n + 1);
      }
      Exceeds(c, r, bot, a, n);
    }
  }
}
