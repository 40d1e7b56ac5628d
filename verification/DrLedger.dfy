/**
 The trend replay's money: at every day boundary cash and the open positions' cost
 make up the starting value and the exact closed profit; and the running equity of
 the trade log, added up from rounded profits in any order, ends within half a cent
 per trade of the cash left.
 */
module DrLedger {
  import opened Basics
  import opened ReplayCalendar
  import opened DrReplay

  function OpenCost(op: seq<Position>): real {
    if op == [] then 0.0 else OpenCost(op[..|op| - 1]) + Cost(op[|op| - 1])
  }

  function Profit(trades: seq<Trade>): real {
    if trades == [] then 0.0 else Profit(trades[..|trades| - 1]) + trades[|trades| - 1].profit
  }

  ghost predicate Conserved(b: Book) {
    b.cash + OpenCost(b.op) == NAV0 + Profit(b.trades)
  }

  // ── Steps ───────────────────────────────────────────────────────────────

  lemma {:induction false} CostWithout(op: seq<Position>, i: nat)
    requires i < |op|
    ensures OpenCost(op[..i] + op[i + 1..]) == OpenCost(op) - Cost(op[i])
  {
    hide Cost;
    if i == |op| - 1 {
      assert op[..i] + op[i + 1..] == op[..|op| - 1];
    } else {
      var front, last := op[..|op| - 1], op[|op| - 1];
      CostWithout(front, i);
      var rest := op[..i] + op[i + 1..];
      assert rest[..|rest| - 1] == front[..i] + front[i + 1..];
      assert rest[|rest| - 1] == last;
    }
  }

  lemma ProfitWith(trades: seq<Trade>, t: Trade)
    ensures Profit(trades + [t]) == Profit(trades) + t.profit
  {
    assert (trades + [t])[..|trades|] == trades;
  }

  lemma CostWith(op: seq<Position>, p: Position)
    ensures OpenCost(op + [p]) == OpenCost(op) + Cost(p)
  {
    assert (op + [p])[..|op|] == op;
  }

  lemma {:induction false} ExitsConserve(v: View, b: Book, pe: seq<nat>, k: nat)
    requires Known(v, b.op) && Conserved(b)
    ensures Conserved(FillExits(v, b, pe, k))
  {
    if pe != [] {
      ExitsConserve(v, b, pe[..|pe| - 1], k);
      var before := FillExits(v, b, pe[..|pe| - 1], k);
      var i := Held(before.op, pe[|pe| - 1]);
      if i.Some? {
        CostWithout(before.op, i.value);
        ProfitWith(before.trades, Closed(before.op[i.value], OpenOr(v, before.op[i.value]), k));
      }
      hide Cost, Proceeds, Held, OpenOr;
    }
  }

  lemma EntryConserves(c: Params, v: View, f: Filling, sym: nat, equity: real, riskMult: real, k: nat)
    requires Known(v, f.book.op) && sym < |v| && Conserved(f.book)
    ensures Conserved(FillEntry(c, v, f, sym, equity, riskMult, k).book)
  {
    var f' := FillEntry(c, v, f, sym, equity, riskMult, k);
    if f' != f {
      CostWith(f.book.op, f'.book.op[|f.book.op|]);
      hide Cost, Spend, Times;
    }
  }

  lemma {:induction false} EntriesConserve(c: Params, v: View, f: Filling, pen: seq<nat>, equity: real, riskMult: real, k: nat)
    requires Known(v, f.book.op) && AllKnown(v, pen) && Conserved(f.book)
    ensures Conserved(FillEntries(c, v, f, pen, equity, riskMult, k).book)
    decreases |pen|
  {
    if pen != [] {
      EntryConserves(c, v, f, pen[0], equity, riskMult, k);
      hide FillEntry, Conserved;
      EntriesConserve(c, v, FillEntry(c, v, f, pen[0], equity, riskMult, k), pen[1..], equity, riskMult, k);
    }
  }

  /** Cash, and what the open positions cost, less the profit taken. */
  function Worth(b: Book): real {
    b.cash + OpenCost(b.op) - Profit(b.trades)
  }

  lemma SeenCosts(v: View, p: Position, k: nat)
    requires p.sym < |v|
    ensures Cost(Seen(v, p, k)) == Cost(p)
  {}

  lemma OneConserves(v: View, e: Evening, p: Position, k: nat)
    requires Known(v, e.book.op) && p.sym < |v|
    ensures Worth(GoOverOne(v, e, p, k).book) == Worth(e.book) + Cost(p)
  {
    CostWith(e.book.op, p);
    ProfitWith(e.book.trades, Closed(p, p.lastpx, k));
    hide Cost, Proceeds, Leaves, Round2, OpenCost, Profit, Times;
  }

  /** In the evening, the money of the positions gone over is in the book, whoever stays or was closed. */
  lemma {:induction false} EveningConserves(v: View, b: Book, n: nat, k: nat)
    requires Known(v, b.op) && n <= |b.op|
    ensures Worth(GoOver(v, b, n, k).book) == b.cash + OpenCost(b.op[..n]) - Profit(b.trades)
  {
    hide Cost, GoOverOne, Seen;
    if n > 0 {
      EveningConserves(v, b, n - 1, k);
      SeenCosts(v, b.op[n - 1], k);
      assert b.op[..n] == b.op[..n - 1] + [b.op[n - 1]];
      CostWith(b.op[..n - 1], b.op[n - 1]);
      hide OpenCost, Profit, Worth;
      OneConserves(v, GoOver(v, b, n - 1, k), Seen(v, b.op[n - 1], k), k);
    }
  }

  lemma {:induction false} LiquidationConserves(v: View, b: Book, n: nat, k: nat)
    requires Known(v, b.op) && n <= |b.op|
    ensures var l := Liquidated(v, b, n, k);
      l.op == [] && l.cash - Profit(l.trades) == b.cash + OpenCost(b.op[..n]) - Profit(b.trades)
  {
    if n > 0 {
      LiquidationConserves(v, b, n - 1, k);
      var p := b.op[n - 1];
      assert b.op[..n] == b.op[..n - 1] + [p];
      CostWith(b.op[..n - 1], p);
      ProfitWith(Liquidated(v, b, n - 1, k).trades, Closed(p, CloseOr(v, p), k));
      hide Cost, Proceeds, CloseOr;
    }
  }

  // ── Days ────────────────────────────────────────────────────────────────

  lemma DayConserves(c: Params, v: View, s: Sim, k: nat)
    requires Fits(v, s) && Conserved(s.book)
    ensures Conserved(Day(c, v, s, k).book)
  {
    ExitsConserve(v, s.book, s.pe, k);
    var b := FillExits(v, s.book, s.pe, k);
    var equity := EquityNow(v, b);
    var peak: Positive := Max(s.peak, equity);
    var f0 := Filling(b, equity - b.cash);
    EntriesConserve(c, v, f0, s.pen, equity, RiskMult(c, equity, peak), k);
    var f := FillEntries(c, v, f0, s.pen, equity, RiskMult(c, equity, peak), k);
    EveningConserves(v, f.book, |f.book.op|, k);
    assert f.book.op[..|f.book.op|] == f.book.op;
    hide FillExits, FillEntries, GoOver, EquityNow, RiskMult, Chosen, OpenCost, Profit;
  }

  /** At every day boundary, cash and the open positions' cost with fees are the starting value and the exact profit. */
  lemma {:induction false} MoneyIsConserved(c: Params, assets: seq<seq<Bar>>, n: nat)
    requires n <= |Days(assets)|
    ensures Conserved(After(c, assets, n).book)
  {
    hide Day, Conserved, Days;
    if n == 0 {
      StartConserved();
    } else {
      MoneyIsConserved(c, assets, n - 1);
      DayConserves(c, ViewOn(assets, Days(assets)[n - 1]), After(c, assets, n - 1), n - 1);
    }
  }

  lemma StartConserved()
    ensures Conserved(START.book)
  {}

  /** Liquidating a conserved book leaves its money as cash. */
  lemma LiquidationCash(v: View, b: Book, k: nat)
    requires Known(v, b.op) && Conserved(b)
    ensures var l := Liquidated(v, b, |b.op|, k); l.op == [] && l.cash == NAV0 + Profit(l.trades)
  {
    LiquidationConserves(v, b, |b.op|, k);
    assert b.op[..|b.op|] == b.op;
  }

  /** After the final liquidation all money is cash. */
  lemma FinalCash(c: Params, assets: seq<seq<Bar>>)
    requires Days(assets) != []
    ensures Final(c, assets).op == []
    ensures Final(c, assets).cash == NAV0 + Profit(Final(c, assets).trades)
  {
    hide Days, After, Liquidated, OpenCost, Profit, QuoteOn, Conserved;
    var days := Days(assets);
    MoneyIsConserved(c, assets, |days|);
    LiquidationCash(ViewOn(assets, days[|days| - 1]), After(c, assets, |days|).book, |days| - 1);
  }

  // ── Rounding ────────────────────────────────────────────────────────────

  lemma NearestIsNear(x: real)
    ensures Abs(Nearest(x) as real - x) <= 0.5
    ensures x == x.Floor as real ==> Nearest(x) == x.Floor
    ensures x - x.Floor as real == 0.5 ==> Nearest(x) % 2 == 0
  {}

  /** Rounding to cents moves by half a cent at most. */
  lemma RoundIsNear(x: real)
    ensures Abs(Round2(x) - x) <= 0.005
  {
    NearestIsNear(x * 100.0);
    hide Nearest;
  }

  /** An amount in whole cents. */
  ghost predicate WholeCents(x: real) {
    exists n: int :: x == Cents(n)
  }

  function Cents(n: int): real {
    n as real / 100.0
  }

  lemma RoundKeepsCents(x: real)
    requires WholeCents(x)
    ensures Round2(x) == x
  {
    var n: int :| x == Cents(n);
    assert x * 100.0 == n as real;
    NearestIsNear(n as real);
    hide Nearest;
  }

  lemma CentsAdd(x: real, y: real)
    requires WholeCents(x)
    ensures WholeCents(x + Round2(y))
  {
    var n: int :| x == Cents(n);
    var m := Nearest(y * 100.0);
    hide Nearest;
    assert x + Round2(y) == Cents(n + m);
  }

  // ── The log ─────────────────────────────────────────────────────────────

  /** Each log entry's profit is its exact profit in cents. */
  ghost predicate Rounded(trades: seq<Trade>) {
    forall i :: 0 <= i < |trades| ==> trades[i].pnl == Round2(trades[i].profit)
  }

  function LogSum(trades: seq<Trade>): real {
    if trades == [] then 0.0 else LogSum(trades[..|trades| - 1]) + trades[|trades| - 1].pnl
  }

  lemma {:induction false} LogNearProfit(trades: seq<Trade>)
    requires Rounded(trades)
    ensures Abs(LogSum(trades) - Profit(trades)) <= 0.005 * |trades| as real
  {
    if trades != [] {
      LogNearProfit(trades[..|trades| - 1]);
      RoundIsNear(trades[|trades| - 1].profit);
      hide Round2;
    }
  }

  lemma {:induction false} LogSumWithout(trades: seq<Trade>, i: nat)
    requires i < |trades|
    ensures LogSum(trades[..i] + trades[i + 1..]) == LogSum(trades) - trades[i].pnl
  {
    if i == |trades| - 1 {
      assert trades[..i] + trades[i + 1..] == trades[..|trades| - 1];
    } else {
      var front := trades[..|trades| - 1];
      LogSumWithout(front, i);
      var rest := trades[..i] + trades[i + 1..];
      assert rest[..|rest| - 1] == front[..i] + front[i + 1..];
    }
  }

  /** The last element of one sequence, found in the other. */
  lemma Elsewhere(a: seq<Trade>, b: seq<Trade>) returns (i: nat)
    requires multiset(a) == multiset(b) && a != []
    ensures i < |b| && b[i] == a[|a| - 1]
    ensures multiset(a[..|a| - 1]) == multiset(b[..i] + b[i + 1..]) && |a| == |b|
  {
    var last := a[|a| - 1];
    assert |a| == |multiset(a)| == |multiset(b)| == |b|;
    assert last in multiset(b);
    i :| 0 <= i < |b| && b[i] == last;
    assert a == a[..|a| - 1] + [last];
    assert b == b[..i] + [last] + b[i + 1..];
    var x, y := multiset(a[..|a| - 1]), multiset(b[..i] + b[i + 1..]);
    assert x + multiset{last} == y + multiset{last};
    assert (x + multiset{last}) - multiset{last} == x && (y + multiset{last}) - multiset{last} == y;
  }

  /** Sorting does not change the sum. */
  lemma {:induction false} LogSumReordered(a: seq<Trade>, b: seq<Trade>)
    requires multiset(a) == multiset(b)
    ensures LogSum(a) == LogSum(b) && |a| == |b|
  {
    if a == [] {
      assert |multiset(b)| == 0;
    } else {
      var i := Elsewhere(a, b);
      LogSumWithout(b, i);
      LogSumReordered(a[..|a| - 1], b[..i] + b[i + 1..]);
    }
  }

  /** The running equity over a log in the given order: start, then rounded after every trade. */
  method RunningEquity(trades: seq<Trade>) returns (running: seq<real>, last: real)
    requires Rounded(trades)
    ensures |running| == |trades| && last == NAV0 + LogSum(trades)
    ensures forall i :: 0 <= i < |trades| ==> running[i] == NAV0 + LogSum(trades[..i + 1])
  {
    var reo := NAV0;
    running := [];
    assert WholeCents(reo) by {
      assert NAV0 == Cents(100000);
    }
    var i := 0;
    while i < |trades|
      invariant 0 <= i <= |trades| && |running| == i
      invariant reo == NAV0 + LogSum(trades[..i]) && WholeCents(reo)
      invariant forall j :: 0 <= j < i ==> running[j] == NAV0 + LogSum(trades[..j + 1])
    {
      assert trades[..i + 1][..i] == trades[..i];
      CentsAdd(reo, trades[i].profit);
      RoundKeepsCents(reo + trades[i].pnl);
      reo := Round2(reo + trades[i].pnl);
      running := running + [reo];
      i := i + 1;
    }
    assert trades[..i] == trades;
    last := reo;
  }

  // ── The log ends near the cash ──────────────────────────────────────────

  lemma {:induction false} ExitsRound(v: View, b: Book, pe: seq<nat>, k: nat)
    requires Known(v, b.op) && Rounded(b.trades)
    ensures Rounded(FillExits(v, b, pe, k).trades)
  {
    if pe != [] {
      ExitsRound(v, b, pe[..|pe| - 1], k);
      hide Round2, Proceeds, Cost, OpenOr;
    }
  }

  lemma {:induction false} EntriesRound(c: Params, v: View, f: Filling, pen: seq<nat>, equity: real, riskMult: real, k: nat)
    requires Known(v, f.book.op) && AllKnown(v, pen)
    ensures FillEntries(c, v, f, pen, equity, riskMult, k).book.trades == f.book.trades
    decreases |pen|
  {
    if pen != [] && |f.book.op| < MAX_POS {
      EntriesRound(c, v, FillEntry(c, v, f, pen[0], equity, riskMult, k), pen[1..], equity, riskMult, k);
      hide Spend, Cost, Times;
    }
  }

  lemma {:induction false} EveningRounds(v: View, b: Book, n: nat, k: nat)
    requires Known(v, b.op) && n <= |b.op| && Rounded(b.trades)
    ensures Rounded(GoOver(v, b, n, k).book.trades)
  {
    if n > 0 {
      EveningRounds(v, b, n - 1, k);
      hide Round2, Proceeds, Cost, Leaves;
    }
  }

  lemma {:induction false} LiquidationRounds(v: View, b: Book, n: nat, k: nat)
    requires Known(v, b.op) && n <= |b.op| && Rounded(b.trades)
    ensures Rounded(Liquidated(v, b, n, k).trades)
  {
    if n > 0 {
      LiquidationRounds(v, b, n - 1, k);
      hide Round2, Proceeds, Cost, CloseOr;
    }
  }

  lemma DayRounds(c: Params, v: View, s: Sim, k: nat)
    requires Fits(v, s) && Rounded(s.book.trades)
    ensures Rounded(Day(c, v, s, k).book.trades)
  {
    ExitsRound(v, s.book, s.pe, k);
    var b := FillExits(v, s.book, s.pe, k);
    var equity := EquityNow(v, b);
    var peak: Positive := Max(s.peak, equity);
    EntriesRound(c, v, Filling(b, equity - b.cash), s.pen, equity, RiskMult(c, equity, peak), k);
    var f := FillEntries(c, v, Filling(b, equity - b.cash), s.pen, equity, RiskMult(c, equity, peak), k);
    EveningRounds(v, f.book, |f.book.op|, k);
    hide FillExits, FillEntries, GoOver, EquityNow, RiskMult, Chosen, Rounded;
  }

  lemma {:induction false} AlwaysRounded(c: Params, assets: seq<seq<Bar>>, n: nat)
    requires n <= |Days(assets)|
    ensures Rounded(After(c, assets, n).book.trades)
  {
    hide Day, Days, QuoteOn;
    if n > 0 {
      AlwaysRounded(c, assets, n - 1);
      hide Rounded;
      DayRounds(c, ViewOn(assets, Days(assets)[n - 1]), After(c, assets, n - 1), n - 1);
    }
  }

  lemma FinalRounded(c: Params, assets: seq<seq<Bar>>)
    requires Days(assets) != []
    ensures Rounded(Final(c, assets).trades)
  {
    hide Days, After, Liquidated, QuoteOn, Rounded;
    var days := Days(assets);
    AlwaysRounded(c, assets, |days|);
    var s := After(c, assets, |days|);
    LiquidationRounds(ViewOn(assets, days[|days| - 1]), s.book, |s.book.op|, |days| - 1);
  }

  lemma SortedRounded(sorted: seq<Trade>, trades: seq<Trade>)
    requires multiset(sorted) == multiset(trades) && Rounded(trades)
    ensures Rounded(sorted)
  {
    hide Round2;
    forall i | 0 <= i < |sorted|
      ensures sorted[i].pnl == Round2(sorted[i].profit)
    {
      assert sorted[i] in multiset(trades);
    }
  }

  /**
   The running equity ends within half a cent per trade of the final cash, whatever
   order the trades are sorted in.
   */
  lemma LogEndsNearCash(c: Params, assets: seq<seq<Bar>>, sorted: seq<Trade>)
    requires Days(assets) != [] && multiset(sorted) == multiset(Final(c, assets).trades)
    ensures Rounded(sorted)
    ensures Abs(NAV0 + LogSum(sorted) - Final(c, assets).cash) <= 0.005 * |sorted| as real
  {
    hide Final, Days, LogSum, Profit, Rounded;
    var trades := Final(c, assets).trades;
    FinalRounded(c, assets);
    FinalCash(c, assets);
    LogNearProfit(trades);
    LogSumReordered(sorted, trades);
    SortedRounded(sorted, trades);
  }
}
