/**
 What the trend replay pays and gets, read off the bars: every entry at the open of its
 day with slippage and of the size the rules give, every exit at the open of its day or
 at what stands in for it, profits net of fees, and the curve from the closes.
 */
module DrFills {
  import opened Basics
  import opened ReplayCalendar
  import opened DrReplay
  import opened DrLedger
  import opened DrSignals

  /** The asset's bar on the k-th day. */
  predicate DayBar(assets: seq<seq<Bar>>, sym: nat, k: int, j: int) {
    0 <= k < |Days(assets)| && BarOf(assets, sym, Days(assets)[k], j)
  }

  predicate Opens(bar: Bar) {
    bar.open.Some? && bar.open.value > 0.0
  }

  /** Bought on day k at that day's open, slippage on top. */
  ghost predicate BoughtAt(assets: seq<seq<Bar>>, sym: nat, e: real, k: int) {
    exists j :: DayBar(assets, sym, k, j) && Opens(assets[sym][j]) && e == assets[sym][j].open.value * 1.0005
  }

  ghost predicate HasBar(assets: seq<seq<Bar>>, sym: nat, k: int) {
    exists j :: DayBar(assets, sym, k, j)
  }

  /** Day seen is the last up to day k with a bar, and it closed at px. */
  ghost predicate LastClose(assets: seq<seq<Bar>>, sym: nat, seen: int, px: real, k: int) {
    && seen <= k && (exists j :: DayBar(assets, sym, seen, j) && px == assets[sym][j].close)
    && forall i :: seen < i <= k ==> !HasBar(assets, sym, i)
  }

  ghost predicate Sized(qty: real, e: real, sz: real) {
    qty * e == sz && sz >= 0.01
  }

  /** An open position after n days. */
  ghost predicate HeldFair(assets: seq<seq<Bar>>, p: Position, n: int) {
    && p.k < n && BoughtAt(assets, p.sym, p.e, p.k) && Sized(p.qty, p.e, p.sz)
    && p.k <= p.seen && LastClose(assets, p.sym, p.seen, p.lastpx, n - 1)
  }

  /**
   Sold on day k, slippage taken off: at that day's open, or for what was paid if there is
   no positive open, or no bar but one the day before; else the asset has had no bar for
   more than 45 days, and its last close counts.
   */
  ghost predicate SoldAt(assets: seq<seq<Bar>>, sym: nat, e: real, exit: real, k: int) {
    && (forall j :: DayBar(assets, sym, k, j) && Opens(assets[sym][j]) ==> exit == assets[sym][j].open.value * 0.9995)
    && (forall j :: DayBar(assets, sym, k, j) && !Opens(assets[sym][j]) ==> exit == e * 0.9995)
    && (!HasBar(assets, sym, k) ==>
          if HasBar(assets, sym, k - 1) then exit == e * 0.9995
          else exists seen: int, px: real :: LastClose(assets, sym, seen, px, k) && k - seen > 45 && exit == px * 0.9995)
  }

  /** The profit is what came in less what was paid, fees on both sides; the log shows it to the nearest cent. */
  ghost predicate Settled(t: Trade) {
    && t.profit == t.qty * t.exit * 0.999 - t.qty * t.entry * 1.001
    && WholeCents(t.pnl) && -0.005 <= t.pnl - t.profit <= 0.005
  }

  ghost predicate TradeFair(assets: seq<seq<Bar>>, t: Trade) {
    && t.entered <= t.exited && BoughtAt(assets, t.sym, t.entry, t.entered) && Sized(t.qty, t.entry, t.size)
    && SoldAt(assets, t.sym, t.entry, t.exit, t.exited) && Settled(t)
  }

  ghost predicate TradesFair(assets: seq<seq<Bar>>, trades: seq<Trade>) {
    forall t :: t in trades ==> TradeFair(assets, t)
  }

  ghost predicate Fair(assets: seq<seq<Bar>>, b: Book, n: int) {
    && (forall p :: p in b.op ==> HeldFair(assets, p, n)) && |b.op| <= 8 && TradesFair(assets, b.trades)
  }

  // ── A position is closed ────────────────────────────────────────────────

  lemma RoundedToCents(x: real)
    ensures WholeCents(Round2(x)) && -0.005 <= Round2(x) - x <= 0.005
  {
    RoundIsNear(x);
    hide Nearest;
    assert Round2(x) == Cents(Nearest(x * 100.0));
  }

  lemma ClosedIs(p: Position, price: real, k: nat)
    ensures var t := Closed(p, price, k);
      && t.sym == p.sym && t.entered == p.k && t.exited == k && t.entry == p.e && t.qty == p.qty && t.size == p.sz
      && t.exit == price * 0.9995 && Settled(t)
    ensures Proceeds(p, price) == p.qty * (price * 0.9995) * 0.999
  {
    RoundedToCents(Proceeds(p, price) - Cost(p));
    hide Round2, WholeCents;
  }

  lemma QuoteOfDay(assets: seq<seq<Bar>>, sym: nat, k: nat)
    requires AllSorted(assets) && sym < |assets| && k < |Days(assets)|
    ensures var v := ViewOn(assets, Days(assets)[k]);
      && (v[sym].None? <==> forall j :: !DayBar(assets, sym, k, j))
      && (forall j :: DayBar(assets, sym, k, j) ==>
            v[sym].Some? && v[sym].value.open == assets[sym][j].open && v[sym].value.close == assets[sym][j].close
            && v[sym].value.atrpct == AtrShare(assets[sym], j))
      && (v[sym].Some? ==> DayBar(assets, sym, k, v[sym].value.j))
  {
    var date := Days(assets)[k];
    NoQuote(assets, sym, date);
    assert forall j :: DayBar(assets, sym, k, j) <==> BarOf(assets, sym, date, j);
    hide Days, AtrShare, ViewOn, AllSorted, BarOf;
    forall j | DayBar(assets, sym, k, j)
      ensures
        var q := ViewOn(assets, date)[sym];
        && q.Some? && q.value.open == assets[sym][j].open && q.value.close == assets[sym][j].close
        && q.value.atrpct == AtrShare(assets[sym], j)
    {
      QuoteIs(assets, sym, date, j);
    }
  }

  lemma ExitSold(assets: seq<seq<Bar>>, p: Position, k: nat)
    requires AllSorted(assets) && p.sym < |assets| && k < |Days(assets)| && HasBar(assets, p.sym, k - 1)
    ensures SoldAt(assets, p.sym, p.e, OpenOr(ViewOn(assets, Days(assets)[k]), p) * 0.9995, k)
  {
    QuoteOfDay(assets, p.sym, k);
    hide Days, ViewOn, AtrShare, DayBar, LastClose, AllSorted;
  }

  lemma ClosedFair(assets: seq<seq<Bar>>, p: Position, price: real, n: int, k: nat)
    requires HeldFair(assets, p, n) && n <= k + 1 && SoldAt(assets, p.sym, p.e, price * 0.9995, k)
    ensures TradeFair(assets, Closed(p, price, k))
  {
    ClosedIs(p, price, k);
    hide BoughtAt, SoldAt, LastClose, Settled, Closed;
  }

  // ── Morning ─────────────────────────────────────────────────────────────

  lemma WithoutFair(assets: seq<seq<Bar>>, op: seq<Position>, i: nat, n: int)
    requires i < |op| && forall p :: p in op ==> HeldFair(assets, p, n)
    ensures forall p :: p in op[..i] + op[i + 1..] ==> HeldFair(assets, p, n)
  {
    hide HeldFair;
  }

  lemma AddFair(assets: seq<seq<Bar>>, trades: seq<Trade>, t: Trade)
    requires TradesFair(assets, trades) && TradeFair(assets, t)
    ensures TradesFair(assets, trades + [t])
  {
    hide TradeFair;
  }

  lemma ExitFair(assets: seq<seq<Bar>>, b: Book, sym: nat, k: nat)
    requires AllSorted(assets) && k < |Days(assets)| && Known(ViewOn(assets, Days(assets)[k]), b.op) && Fair(assets, b, k)
    requires HasBar(assets, sym, k - 1)
    ensures Fair(assets, FillExit(ViewOn(assets, Days(assets)[k]), b, sym, k), k)
  {
    var v := ViewOn(assets, Days(assets)[k]);
    var i := Held(b.op, sym);
    if i.Some? {
      var p := b.op[i.value];
      assert p in b.op;
      ExitSold(assets, p, k);
      ClosedFair(assets, p, OpenOr(v, p), k, k);
      WithoutFair(assets, b.op, i.value, k);
      AddFair(assets, b.trades, Closed(p, OpenOr(v, p), k));
    }
    hide Days, ViewOn, HeldFair, TradesFair, Closed, Proceeds, OpenOr, Held, DayBar;
  }

  lemma {:induction false} ExitsFair(assets: seq<seq<Bar>>, b: Book, pe: seq<nat>, k: nat)
    requires AllSorted(assets) && k < |Days(assets)| && Known(ViewOn(assets, Days(assets)[k]), b.op) && Fair(assets, b, k)
    requires forall sym :: sym in pe ==> HasBar(assets, sym, k - 1)
    ensures Fair(assets, FillExits(ViewOn(assets, Days(assets)[k]), b, pe, k), k)
  {
    hide Days, ViewOn, Fair, DayBar, FillExit, AllSorted;
    if pe != [] {
      var v := ViewOn(assets, Days(assets)[k]);
      var rest := pe[..|pe| - 1];
      forall sym | sym in rest
        ensures HasBar(assets, sym, k - 1)
      {
        assert sym in pe;
      }
      assert pe[|pe| - 1] in pe;
      ExitsFair(assets, b, rest, k);
      ExitFair(assets, FillExits(v, b, pe[..|pe| - 1], k), pe[|pe| - 1], k);
    }
  }

  /** The smallest of three. */
  predicate SmallestOf(x: real, a: real, b: real, c: real) {
    x <= a && x <= b && x <= c && (x == a || x == b || x == c)
  }

  /** One twentieth over the average range's share of the close, kept between 0.3 and 1.5; one if the share is not positive. */
  predicate ScaleIs(x: real, share: real) {
    && 0.3 <= x <= 1.5
    && if share > 0.0 then (x < 1.5 ==> x * share >= 0.05) && (x > 0.3 ==> x * share <= 0.05) else x == 1.0
  }

  lemma ScaledRight(share: real)
    requires share > 0.0
    ensures 0.05 / share * share == 0.05
    ensures 0.05 / share < 0.3 ==> 0.3 * share >= 0.05
    ensures 0.05 / share > 1.5 ==> 1.5 * share <= 0.05
  {}

  lemma VolScaleIs(q: Quote)
    ensures ScaleIs(VolScale(q), q.atrpct)
  {
    if q.atrpct > 0.0 {
      ScaledRight(q.atrpct);
    }
  }

  predicate FactorIs(c: Params, x: real, share: real) {
    if c.volTarget then ScaleIs(x, share) else x == 1.0
  }

  /**
   What an entry may spend: the smallest of the position's fraction of the equity, times the
   risk and, with volatility targeting, the scale; what the exposure cap leaves; and the cash.
   */
  ghost predicate AmountIs(c: Params, sp: real, equity: real, risk: real, share: real, deployed: real, cash: real) {
    exists x :: FactorIs(c, x, share)
      && SmallestOf(sp, c.perFrac * equity * risk * x, c.expoCap * equity - deployed, cash)
  }

  lemma SpendIs(c: Params, q: Quote, equity: real, risk: real, f: Filling)
    ensures AmountIs(c, Spend(c, q, equity, risk, f), equity, risk, q.atrpct, f.deployed, f.book.cash)
  {
    VolScaleIs(q);
    var x := if c.volTarget then VolScale(q) else 1.0;
    hide VolScale, ScaleIs;
    assert FactorIs(c, x, q.atrpct);
    assert SmallestOf(Spend(c, q, equity, risk, f), c.perFrac * equity * risk * x, c.expoCap * equity - f.deployed, f.book.cash);
  }

  /** Bought: one position more, at the open and of that size; the cash pays it and the fee. */
  ghost predicate Bought(assets: seq<seq<Bar>>, f: Filling, f': Filling, sym: nat, k: nat, sp: real) {
    && sp >= 0.01 && |f'.book.op| == |f.book.op| + 1 && f'.book.op[..|f.book.op|] == f.book.op && f'.book.trades == f.book.trades
    && var p := f'.book.op[|f.book.op|];
       && p.sym == sym && p.k == k && p.seen == k && p.sz == sp && p.qty * p.e == sp && BoughtAt(assets, sym, p.e, k)
       && f'.book.cash == f.book.cash - sp * 1.001 && f'.deployed == f.deployed + sp
  }

  lemma BuyIs(o: real, sp: real)
    requires o > 0.0 && sp > 0.0
    ensures o * 1.0005 > 0.0 && sp / (o * 1.0005) * (o * 1.0005) == sp
  {}

  lemma CostOf(p: Position, sp: real)
    requires p.qty * p.e == sp
    ensures Cost(p) == sp * 1.001
  {}

  /** A filled entry, at the open. */
  lemma FillBuys(c: Params, v: View, f: Filling, sym: nat, equity: real, risk: real, k: nat)
    requires Known(v, f.book.op) && sym < |v| && v[sym].Some? && v[sym].value.open.Some? && v[sym].value.open.value > 0.0
    requires Held(f.book.op, sym).None?
    ensures var f', sp := FillEntry(c, v, f, sym, equity, risk, k), Spend(c, v[sym].value, equity, risk, f);
      if sp < 0.01 then f' == f
      else
        && |f'.book.op| == |f.book.op| + 1 && f'.book.op[..|f.book.op|] == f.book.op && f'.book.trades == f.book.trades
        && var p := f'.book.op[|f.book.op|];
           && p.sym == sym && p.k == k && p.seen == k && p.sz == sp && p.e == v[sym].value.open.value * 1.0005 && p.qty * p.e == sp
           && f'.book.cash == f.book.cash - sp * 1.001 && f'.deployed == f.deployed + sp
  {
    var f', sp := FillEntry(c, v, f, sym, equity, risk, k), Spend(c, v[sym].value, equity, risk, f);
    if sp >= 0.01 {
      BuyIs(v[sym].value.open.value, sp);
      CostOf(f'.book.op[|f.book.op|], sp);
    }
    hide Spend, Held, Cost;
  }

  /** An entry fills if the asset is not held, has a positive open, and a cent or more may be spent. */
  lemma EntryIs(c: Params, assets: seq<seq<Bar>>, f: Filling, sym: nat, j: nat, equity: real, risk: real, k: nat)
    requires AllSorted(assets) && k < |Days(assets)| && Known(ViewOn(assets, Days(assets)[k]), f.book.op) && DayBar(assets, sym, k, j)
    ensures var f' := FillEntry(c, ViewOn(assets, Days(assets)[k]), f, sym, equity, risk, k);
      if (forall i :: 0 <= i < |f.book.op| ==> f.book.op[i].sym != sym) && Opens(assets[sym][j]) then
        exists sp :: AmountIs(c, sp, equity, risk, AtrShare(assets[sym], j), f.deployed, f.book.cash)
          && if sp < 0.01 then f' == f else Bought(assets, f, f', sym, k, sp)
      else f' == f
  {
    var v := ViewOn(assets, Days(assets)[k]);
    QuoteOfDay(assets, sym, k);
    assert Held(f.book.op, sym).None? <==> forall i :: 0 <= i < |f.book.op| ==> f.book.op[i].sym != sym;
    hide Days, ViewOn, AtrShare, AllSorted, DayBar, Held, AmountIs, Spend;
    var q := v[sym].value;
    SpendIs(c, q, equity, risk, f);
    if Held(f.book.op, sym).None? && Opens(assets[sym][j]) {
      FillBuys(c, v, f, sym, equity, risk, k);
      hide FillEntry;
      assert BoughtAt(assets, sym, q.open.value * 1.0005, k);
    }
  }

  lemma NoEntry(c: Params, assets: seq<seq<Bar>>, f: Filling, sym: nat, equity: real, risk: real, k: nat)
    requires AllSorted(assets) && sym < |assets| && k < |Days(assets)| && Known(ViewOn(assets, Days(assets)[k]), f.book.op)
    requires !HasBar(assets, sym, k)
    ensures FillEntry(c, ViewOn(assets, Days(assets)[k]), f, sym, equity, risk, k) == f
  {
    QuoteOfDay(assets, sym, k);
    hide Days, ViewOn, AllSorted, DayBar, Held, Spend;
  }

  /** A position bought this morning has not been marked yet. */
  ghost predicate MiddayFair(assets: seq<seq<Bar>>, p: Position, k: int) {
    if p.k == k then BoughtAt(assets, p.sym, p.e, k) && Sized(p.qty, p.e, p.sz) && p.seen == k else HeldFair(assets, p, k)
  }

  ghost predicate AllMidday(assets: seq<seq<Bar>>, op: seq<Position>, k: int) {
    forall p :: p in op ==> MiddayFair(assets, p, k)
  }

  lemma EntryFair(c: Params, assets: seq<seq<Bar>>, f: Filling, sym: nat, equity: real, risk: real, k: nat)
    requires AllSorted(assets) && sym < |assets| && k < |Days(assets)| && Known(ViewOn(assets, Days(assets)[k]), f.book.op)
    requires AllMidday(assets, f.book.op, k)
    ensures var f' := FillEntry(c, ViewOn(assets, Days(assets)[k]), f, sym, equity, risk, k);
      AllMidday(assets, f'.book.op, k) && |f'.book.op| <= |f.book.op| + 1 && f'.book.trades == f.book.trades
  {
    var v := ViewOn(assets, Days(assets)[k]);
    var f' := FillEntry(c, v, f, sym, equity, risk, k);
    if HasBar(assets, sym, k) {
      var j :| DayBar(assets, sym, k, j);
      EntryIs(c, assets, f, sym, j, equity, risk, k);
      if f' != f {
        var sp :| Bought(assets, f, f', sym, k, sp);
        BoughtFair(assets, f, f', sym, k, sp);
      }
    } else {
      NoEntry(c, assets, f, sym, equity, risk, k);
    }
    hide Days, ViewOn, MiddayFair, FillEntry, DayBar;
  }

  lemma BoughtFair(assets: seq<seq<Bar>>, f: Filling, f': Filling, sym: nat, k: nat, sp: real)
    requires AllMidday(assets, f.book.op, k) && Bought(assets, f, f', sym, k, sp)
    ensures AllMidday(assets, f'.book.op, k)
  {
    var p := f'.book.op[|f.book.op|];
    assert f'.book.op == f.book.op + [p];
    assert MiddayFair(assets, p, k);
    hide MiddayFair;
  }

  lemma {:induction false} EntriesFair(
    c: Params, assets: seq<seq<Bar>>, f: Filling, pen: seq<nat>, equity: real, risk: real, k: nat)
    requires AllSorted(assets) && k < |Days(assets)| && Known(ViewOn(assets, Days(assets)[k]), f.book.op)
    requires AllKnown(ViewOn(assets, Days(assets)[k]), pen) && AllMidday(assets, f.book.op, k) && |f.book.op| <= 8
    ensures var f' := FillEntries(c, ViewOn(assets, Days(assets)[k]), f, pen, equity, risk, k);
      AllMidday(assets, f'.book.op, k) && |f'.book.op| <= 8 && f'.book.trades == f.book.trades
    decreases |pen|
  {
    hide Days, ViewOn, AllMidday, FillEntry;
    if pen != [] && |f.book.op| < MAX_POS {
      EntryFair(c, assets, f, pen[0], equity, risk, k);
      EntriesFair(c, assets, FillEntry(c, ViewOn(assets, Days(assets)[k]), f, pen[0], equity, risk, k), pen[1..], equity, risk, k);
    }
  }

  // ── Evening ─────────────────────────────────────────────────────────────

  lemma SeenToday(assets: seq<seq<Bar>>, p: Position, k: nat, j: nat)
    requires MiddayFair(assets, p, k) && DayBar(assets, p.sym, k, j)
    ensures HeldFair(assets, p.(seen := k, lastpx := assets[p.sym][j].close), k + 1)
  {
    hide DayBar, BoughtAt, Sized;
  }

  lemma NotSeen(assets: seq<seq<Bar>>, p: Position, k: nat)
    requires MiddayFair(assets, p, k) && !HasBar(assets, p.sym, k)
    ensures HeldFair(assets, p, k + 1)
  {
    hide DayBar, Sized;
    assert p.k == k ==> HasBar(assets, p.sym, k);
    hide HasBar;
  }

  lemma GoneSold(assets: seq<seq<Bar>>, p: Position, k: nat)
    requires HeldFair(assets, p, k + 1) && !HasBar(assets, p.sym, k) && k - p.seen > 45
    ensures SoldAt(assets, p.sym, p.e, p.lastpx * 0.9995, k)
  {
    hide DayBar, BoughtAt, Sized;
  }

  /** A position gone over: it is held on with today's close, or closed for want of bars. */
  lemma SeenFair(assets: seq<seq<Bar>>, p: Position, k: nat)
    requires AllSorted(assets) && p.sym < |assets| && k < |Days(assets)| && MiddayFair(assets, p, k)
    ensures var q := Seen(ViewOn(assets, Days(assets)[k]), p, k);
      if Gone(q, k) then TradeFair(assets, Closed(q, q.lastpx, k)) else HeldFair(assets, q, k + 1)
  {
    var q := Seen(ViewOn(assets, Days(assets)[k]), p, k);
    QuoteOfDay(assets, p.sym, k);
    if HasBar(assets, p.sym, k) {
      var j :| DayBar(assets, p.sym, k, j);
      SeenToday(assets, p, k, j);
    } else {
      NotSeen(assets, p, k);
      if Gone(q, k) {
        GoneSold(assets, p, k);
        ClosedFair(assets, p, p.lastpx, k + 1, k);
      }
    }
    hide Days, ViewOn, AllSorted, DayBar, HeldFair, MiddayFair, TradeFair, Closed;
  }

  lemma {:induction false} EveningFair(assets: seq<seq<Bar>>, b: Book, n: nat, k: nat)
    requires AllSorted(assets) && k < |Days(assets)| && Known(ViewOn(assets, Days(assets)[k]), b.op) && n <= |b.op|
    requires AllMidday(assets, b.op, k) && TradesFair(assets, b.trades)
    ensures var b' := GoOver(ViewOn(assets, Days(assets)[k]), b, n, k).book;
      (forall p :: p in b'.op ==> HeldFair(assets, p, k + 1)) && |b'.op| <= n && TradesFair(assets, b'.trades)
  {
    hide Days, ViewOn, GoOverOne;
    if n > 0 {
      var v := ViewOn(assets, Days(assets)[k]);
      EveningFair(assets, b, n - 1, k);
      var p := b.op[n - 1];
      assert p in b.op;
      SeenFair(assets, p, k);
      OneFair(assets, v, GoOver(v, b, n - 1, k), Seen(v, p, k), k);
    }
    hide HeldFair, MiddayFair, TradesFair, Seen;
  }

  lemma OneFair(assets: seq<seq<Bar>>, v: View, e: Evening, p: Position, k: nat)
    requires Known(v, e.book.op) && p.sym < |v|
    requires (forall q :: q in e.book.op ==> HeldFair(assets, q, k + 1)) && TradesFair(assets, e.book.trades)
    requires if Gone(p, k) then TradeFair(assets, Closed(p, p.lastpx, k)) else HeldFair(assets, p, k + 1)
    ensures var b' := GoOverOne(v, e, p, k).book;
      (forall q :: q in b'.op ==> HeldFair(assets, q, k + 1)) && |b'.op| <= |e.book.op| + 1 && TradesFair(assets, b'.trades)
  {
    if Gone(p, k) {
      AddFair(assets, e.book.trades, Closed(p, p.lastpx, k));
    }
    hide HeldFair, TradesFair, TradeFair, Closed, Proceeds, Leaves;
  }

  // ── Days ────────────────────────────────────────────────────────────────

  ghost predicate AllFair(assets: seq<seq<Bar>>, s: Sim, n: int) {
    Fair(assets, s.book, n) && forall sym :: sym in s.pe ==> HasBar(assets, sym, n - 1)
  }

  lemma MorningToMidday(assets: seq<seq<Bar>>, b: Book, k: nat)
    requires Fair(assets, b, k)
    ensures AllMidday(assets, b.op, k) && TradesFair(assets, b.trades) && |b.op| <= 8
  {
    hide BoughtAt, Sized, LastClose, TradesFair;
  }

  lemma QueuedHaveBars(assets: seq<seq<Bar>>, b: Book, k: nat)
    requires AllSorted(assets) && k < |Days(assets)| && Known(ViewOn(assets, Days(assets)[k]), b.op)
    requires forall i :: 0 <= i < |b.op| ==> b.op[i].seen <= k
    ensures forall sym :: sym in GoOver(ViewOn(assets, Days(assets)[k]), b, |b.op|, k).pe ==> HasBar(assets, sym, k)
  {
    var date := Days(assets)[k];
    hide Days, ViewOn, GoOver, AllSorted, StopHit, BarOf;
    forall sym | sym in GoOver(ViewOn(assets, date), b, |b.op|, k).pe
      ensures HasBar(assets, sym, k)
    {
      ExitQueuedIff(assets, date, b, |b.op|, k, sym);
      var j :| BarOf(assets, sym, date, j) && StopHit(assets[sym], j);
      assert DayBar(assets, sym, k, j);
    }
  }

  lemma SeenByNow(assets: seq<seq<Bar>>, op: seq<Position>, k: nat)
    requires AllMidday(assets, op, k)
    ensures forall i :: 0 <= i < |op| ==> op[i].seen <= k
  {
    hide BoughtAt, Sized, HasBar;
    forall i | 0 <= i < |op|
      ensures op[i].seen <= k
    {
      assert op[i] in op;
    }
  }

  /** The day in its three parts. */
  lemma DayParts(c: Params, v: View, s: Sim, k: nat)
    requires Fits(v, s)
    ensures var b := FillExits(v, s.book, s.pe, k);
      var m, s' := Entered(c, v, b, s.pen, s.peak, k), Day(c, v, s, k);
      s'.book == GoOver(v, m, |m.op|, k).book && s'.pe == GoOver(v, m, |m.op|, k).pe
  {
    hide FillExits, Entered, GoOver, Chosen, EquityNow, PeakNow, Known, AllKnown;
  }

  lemma EnteredFair(c: Params, assets: seq<seq<Bar>>, b: Book, pen: seq<nat>, peak: Positive, k: nat)
    requires AllSorted(assets) && k < |Days(assets)| && Known(ViewOn(assets, Days(assets)[k]), b.op)
    requires AllKnown(ViewOn(assets, Days(assets)[k]), pen) && AllMidday(assets, b.op, k) && |b.op| <= 8
    ensures var m := Entered(c, ViewOn(assets, Days(assets)[k]), b, pen, peak, k);
      AllMidday(assets, m.op, k) && |m.op| <= 8 && m.trades == b.trades
  {
    var v := ViewOn(assets, Days(assets)[k]);
    var equity := EquityNow(v, b);
    hide Days, ViewOn, AllMidday, AllSorted, EquityNow, PeakNow, RiskMult, FillEntries, Known, AllKnown;
    EntriesFair(c, assets, Filling(b, equity - b.cash), pen, equity, RiskMult(c, equity, PeakNow(v, peak, b)), k);
  }

  lemma DayFair(c: Params, assets: seq<seq<Bar>>, s: Sim, k: nat)
    requires AllSorted(assets) && k < |Days(assets)| && Fits(ViewOn(assets, Days(assets)[k]), s) && AllFair(assets, s, k)
    ensures AllFair(assets, Day(c, ViewOn(assets, Days(assets)[k]), s, k), k + 1)
  {
    var v := ViewOn(assets, Days(assets)[k]);
    DayParts(c, v, s, k);
    hide Days, ViewOn, Fair, HasBar, AllMidday, TradesFair, AllSorted, Day, Entered, FillExits, GoOver, Known, AllKnown;
    ExitsFair(assets, s.book, s.pe, k);
    var b := FillExits(v, s.book, s.pe, k);
    MorningToMidday(assets, b, k);
    EnteredFair(c, assets, b, s.pen, s.peak, k);
    var m := Entered(c, v, b, s.pen, s.peak, k);
    SeenByNow(assets, m.op, k);
    EveningFair(assets, m, |m.op|, k);
    QueuedHaveBars(assets, m, k);
    FairIs(assets, Day(c, v, s, k).book, k + 1);
  }

  lemma FairIs(assets: seq<seq<Bar>>, b: Book, n: int)
    requires (forall p :: p in b.op ==> HeldFair(assets, p, n)) && |b.op| <= 8 && TradesFair(assets, b.trades)
    ensures Fair(assets, b, n)
  {
    hide HeldFair, TradesFair;
  }

  lemma StartFair(assets: seq<seq<Bar>>)
    ensures AllFair(assets, START, 0)
  {
    hide HeldFair, TradeFair, HasBar;
  }

  lemma {:induction false} AlwaysFair(c: Params, assets: seq<seq<Bar>>, n: nat)
    requires AllSorted(assets) && n <= |Days(assets)|
    ensures AllFair(assets, After(c, assets, n), n)
  {
    hide Day, AllFair, Days, ViewOn, AllSorted, START;
    if n == 0 {
      StartFair(assets);
    } else {
      AlwaysFair(c, assets, n - 1);
      DayFair(c, assets, After(c, assets, n - 1), n - 1);
    }
  }

  /** Every position and every trade of the replay, after any number of days, has the prices of its days. */
  lemma FillsAreFair(c: Params, assets: seq<seq<Bar>>, n: nat)
    requires AllSorted(assets) && n <= |Days(assets)|
    ensures forall p :: p in After(c, assets, n).book.op ==> HeldFair(assets, p, n)
    ensures forall t :: t in After(c, assets, n).book.trades ==> TradeFair(assets, t)
    ensures |After(c, assets, n).book.op| <= 8
    ensures forall sym :: sym in After(c, assets, n).pe ==> HasBar(assets, sym, n - 1)
  {
    AlwaysFair(c, assets, n);
    hide HeldFair, TradeFair, HasBar, After, Days, AllSorted;
  }

  // ── The end ─────────────────────────────────────────────────────────────

  /** Closed at the end of data: at the last day's close, slippage off, or without a bar for what was paid. */
  ghost predicate ClosedAtEnd(assets: seq<seq<Bar>>, p: Position, t: Trade, k: nat) {
    && t.sym == p.sym && t.entered == p.k && t.exited == k && t.entry == p.e && t.qty == p.qty && t.size == p.sz && Settled(t)
    && (forall j :: DayBar(assets, p.sym, k, j) ==> t.exit == assets[p.sym][j].close * 0.9995)
    && (!HasBar(assets, p.sym, k) ==> t.exit == p.e * 0.9995)
  }

  lemma EndIs(assets: seq<seq<Bar>>, p: Position, k: nat)
    requires AllSorted(assets) && p.sym < |assets| && k < |Days(assets)|
    ensures ClosedAtEnd(assets, p, Closed(p, CloseOr(ViewOn(assets, Days(assets)[k]), p), k), k)
  {
    QuoteOfDay(assets, p.sym, k);
    ClosedIs(p, CloseOr(ViewOn(assets, Days(assets)[k]), p), k);
    hide Days, ViewOn, AllSorted, DayBar, Closed, Settled, AtrShare;
  }

  lemma {:induction false} LiquidatedIs(assets: seq<seq<Bar>>, b: Book, n: nat, k: nat)
    requires AllSorted(assets) && k < |Days(assets)| && Known(ViewOn(assets, Days(assets)[k]), b.op) && n <= |b.op|
    ensures var ts := Liquidated(ViewOn(assets, Days(assets)[k]), b, n, k).trades;
      && |ts| == |b.trades| + n && ts[..|b.trades|] == b.trades
      && forall i :: 0 <= i < n ==> ClosedAtEnd(assets, b.op[i], ts[|b.trades| + i], k)
  {
    hide Days, ViewOn, ClosedAtEnd, Closed, Proceeds, CloseOr, AllSorted;
    if n > 0 {
      LiquidatedIs(assets, b, n - 1, k);
      EndIs(assets, b.op[n - 1], k);
    }
  }

  /** The last trades of the log close what is still open, one for each position. */
  lemma FinalTrades(c: Params, assets: seq<seq<Bar>>)
    requires AllSorted(assets) && Days(assets) != []
    ensures var b, ts := After(c, assets, |Days(assets)|).book, Final(c, assets).trades;
      && |ts| == |b.trades| + |b.op| && ts[..|b.trades|] == b.trades
      && forall i :: 0 <= i < |b.op| ==> ClosedAtEnd(assets, b.op[i], ts[|b.trades| + i], |Days(assets)| - 1)
  {
    hide Days, ViewOn, ClosedAtEnd, Liquidated, After, AllSorted;
    var n := |Days(assets)|;
    LiquidatedIs(assets, After(c, assets, n).book, |After(c, assets, n).book.op|, n - 1);
  }

  // ── The curve ───────────────────────────────────────────────────────────

  /** What an open position is worth on day k: its quantity at the close, or at what was paid without a bar; never less than nothing. */
  ghost predicate WorthIs(assets: seq<seq<Bar>>, p: Position, k: nat, w: real) {
    && (forall j :: DayBar(assets, p.sym, k, j) ==> w == if assets[p.sym][j].close > 0.0 then p.qty * assets[p.sym][j].close else 0.0)
    && (!HasBar(assets, p.sym, k) ==> w == p.qty * p.e)
  }

  function Sum(ws: seq<real>): real {
    if ws == [] then 0.0 else Sum(ws[..|ws| - 1]) + ws[|ws| - 1]
  }

  /** The equity of a book on day k: the cash and the worth of each open position. */
  ghost predicate EquityIs(assets: seq<seq<Bar>>, b: Book, k: nat, equity: real) {
    exists ws: seq<real> :: |ws| == |b.op| && (forall i :: 0 <= i < |ws| ==> WorthIs(assets, b.op[i], k, ws[i])) && equity == b.cash + Sum(ws)
  }

  lemma MarkOf(v: View, p: Position)
    requires p.sym < |v|
    ensures v[p.sym].Some? ==> Mark(v, p) == if v[p.sym].value.close > 0.0 then p.qty * v[p.sym].value.close else 0.0
    ensures v[p.sym].None? ==> Mark(v, p) == p.qty * p.e
  {}

  lemma MarkIs(assets: seq<seq<Bar>>, p: Position, k: nat)
    requires AllSorted(assets) && p.sym < |assets| && k < |Days(assets)|
    ensures WorthIs(assets, p, k, Mark(ViewOn(assets, Days(assets)[k]), p))
  {
    QuoteOfDay(assets, p.sym, k);
    MarkOf(ViewOn(assets, Days(assets)[k]), p);
    hide Days, ViewOn, AllSorted, DayBar, AtrShare, Mark;
  }

  lemma {:induction false} MarkedIs(assets: seq<seq<Bar>>, op: seq<Position>, k: nat) returns (ws: seq<real>)
    requires AllSorted(assets) && k < |Days(assets)| && Known(ViewOn(assets, Days(assets)[k]), op)
    ensures |ws| == |op| && Sum(ws) == Marked(ViewOn(assets, Days(assets)[k]), op)
    ensures forall i :: 0 <= i < |ws| ==> WorthIs(assets, op[i], k, ws[i])
  {
    ws := [];
    hide Days, ViewOn, WorthIs, Mark, AllSorted;
    if op != [] {
      var p := op[|op| - 1];
      var w := Mark(ViewOn(assets, Days(assets)[k]), p);
      var front := MarkedIs(assets, op[..|op| - 1], k);
      MarkIs(assets, p, k);
      ws := front + [w];
      assert ws[..|ws| - 1] == front;
    }
  }

  lemma EquityMarked(assets: seq<seq<Bar>>, b: Book, k: nat)
    requires AllSorted(assets) && k < |Days(assets)| && Known(ViewOn(assets, Days(assets)[k]), b.op)
    ensures EquityIs(assets, b, k, EquityNow(ViewOn(assets, Days(assets)[k]), b))
  {
    var ws := MarkedIs(assets, b.op, k);
    hide WorthIs, Marked, Days, ViewOn;
  }

  /** Half while the equity is lower than the peak by more than the guard's share of it; else one. */
  predicate RiskIs(c: Params, equity: real, peak: real, risk: real) {
    if c.ddGuard.Some? && equity < (1.0 - c.ddGuard.value) * peak then risk == 0.5 else risk == 1.0
  }

  lemma LessTimes(x: real, y: real, p: real)
    requires p > 0.0
    ensures x < y <==> x * p < y * p
  {
    if x < y {
      assert (y - x) * p > 0.0;
    } else {
      assert (x - y) * p >= 0.0;
    }
  }

  lemma RatioBelow(equity: real, peak: real, g: real)
    requires peak > 0.0
    ensures equity / peak - 1.0 < 0.0 - g <==> equity < (1.0 - g) * peak
  {
    LessTimes(equity / peak, 1.0 - g, peak);
  }

  lemma RiskMultIs(c: Params, equity: real, peak: Positive)
    ensures RiskIs(c, equity, peak, RiskMult(c, equity, peak))
  {
    if c.ddGuard.Some? {
      RatioBelow(equity, peak, c.ddGuard.value);
    }
  }

  /** Entries are filled at this equity, with this risk, the open positions' worth already deployed. */
  ghost predicate EntriesAt(c: Params, assets: seq<seq<Bar>>, b: Book, pen: seq<nat>, equity: real, risk: real, k: nat, m: Book) {
    && k < |Days(assets)| && Known(ViewOn(assets, Days(assets)[k]), b.op) && AllKnown(ViewOn(assets, Days(assets)[k]), pen)
    && m == FillEntries(c, ViewOn(assets, Days(assets)[k]), Filling(b, equity - b.cash), pen, equity, risk, k).book
  }

  /** A morning: the equity after the exits sets the peak and the risk; then entries are filled. */
  ghost predicate MorningIs(c: Params, assets: seq<seq<Bar>>, s: Sim, b: Book, k: nat, m: Book, peak: real) {
    exists equity, risk :: EquityIs(assets, b, k, equity) && peak == (if equity > s.peak then equity else s.peak)
      && RiskIs(c, equity, peak, risk) && EntriesAt(c, assets, b, s.pen, equity, risk, k, m)
  }

  /** The rest of a day: the curve gets the equity after the entries, then the evening is gone over. */
  ghost predicate EveningIs(assets: seq<seq<Bar>>, s: Sim, m: Book, k: nat, s': Sim) {
    && |s'.eq| == |s.eq| + 1 && s'.eq[..|s.eq|] == s.eq && EquityIs(assets, m, k, s'.eq[|s.eq|])
    && k < |Days(assets)| && Known(ViewOn(assets, Days(assets)[k]), m.op)
    && var v := ViewOn(assets, Days(assets)[k]);
       s'.book == GoOver(v, m, |m.op|, k).book && s'.pe == GoOver(v, m, |m.op|, k).pe && s'.pen == Chosen(v, s'.book.op, s'.pe)
  }

  lemma MorningFrom(c: Params, assets: seq<seq<Bar>>, s: Sim, b: Book, k: nat, m: Book, equity: real, risk: real, peak: real)
    requires EquityIs(assets, b, k, equity) && peak == (if equity > s.peak then equity else s.peak)
    requires RiskIs(c, equity, peak, risk) && EntriesAt(c, assets, b, s.pen, equity, risk, k, m)
    ensures MorningIs(c, assets, s, b, k, m, peak)
  {
    hide EquityIs, RiskIs, EntriesAt;
  }

  lemma EnteredAt(c: Params, assets: seq<seq<Bar>>, b: Book, pen: seq<nat>, peak: Positive, k: nat)
    requires k < |Days(assets)| && Known(ViewOn(assets, Days(assets)[k]), b.op) && AllKnown(ViewOn(assets, Days(assets)[k]), pen)
    ensures var v := ViewOn(assets, Days(assets)[k]);
      EntriesAt(c, assets, b, pen, EquityNow(v, b), RiskMult(c, EquityNow(v, b), PeakNow(v, peak, b)), k, Entered(c, v, b, pen, peak, k))
  {
    hide Days, ViewOn, RiskMult, FillEntries, EquityNow, PeakNow, Known, AllKnown;
  }

  lemma MorningGoes(c: Params, assets: seq<seq<Bar>>, s: Sim, b: Book, k: nat)
    requires AllSorted(assets) && k < |Days(assets)|
    requires Known(ViewOn(assets, Days(assets)[k]), b.op) && AllKnown(ViewOn(assets, Days(assets)[k]), s.pen)
    ensures var v := ViewOn(assets, Days(assets)[k]);
      MorningIs(c, assets, s, b, k, Entered(c, v, b, s.pen, s.peak, k), PeakNow(v, s.peak, b))
  {
    var v := ViewOn(assets, Days(assets)[k]);
    var equity, peak := EquityNow(v, b), PeakNow(v, s.peak, b);
    assert peak == if equity > s.peak then equity else s.peak;
    hide *;
    EquityMarked(assets, b, k);
    RiskMultIs(c, equity, peak);
    EnteredAt(c, assets, b, s.pen, s.peak, k);
    MorningFrom(c, assets, s, b, k, Entered(c, v, b, s.pen, s.peak, k), equity, RiskMult(c, equity, peak), peak);
  }

  lemma EveningGoes(assets: seq<seq<Bar>>, s: Sim, m: Book, k: nat, s': Sim)
    requires AllSorted(assets) && k < |Days(assets)| && Known(ViewOn(assets, Days(assets)[k]), m.op)
    requires var v := ViewOn(assets, Days(assets)[k]);
      && s'.eq == s.eq + [EquityNow(v, m)] && s'.book == GoOver(v, m, |m.op|, k).book && s'.pe == GoOver(v, m, |m.op|, k).pe
      && s'.pen == Chosen(v, s'.book.op, s'.pe)
    ensures EveningIs(assets, s, m, k, s')
  {
    EquityMarked(assets, m, k);
    hide Days, ViewOn, AllSorted, EquityIs, EquityNow, Known, GoOver, Chosen;
  }

  /** A day: the queued exits, the morning, and the evening over what is then open. */
  ghost predicate DayGoes(c: Params, assets: seq<seq<Bar>>, s: Sim, k: nat, s': Sim) {
    && k < |Days(assets)| && Known(ViewOn(assets, Days(assets)[k]), s.book.op)
    && var b := FillExits(ViewOn(assets, Days(assets)[k]), s.book, s.pe, k);
       exists m :: MorningIs(c, assets, s, b, k, m, s'.peak) && EveningIs(assets, s, m, k, s')
  }

  lemma OneDay(c: Params, assets: seq<seq<Bar>>, s: Sim, k: nat)
    requires AllSorted(assets) && k < |Days(assets)| && Fits(ViewOn(assets, Days(assets)[k]), s)
    ensures DayGoes(c, assets, s, k, Day(c, ViewOn(assets, Days(assets)[k]), s, k))
  {
    var v := ViewOn(assets, Days(assets)[k]);
    hide Days, ViewOn, AllSorted, MorningIs, EveningIs;
    var b := FillExits(v, s.book, s.pe, k);
    MorningGoes(c, assets, s, b, k);
    EveningGoes(assets, s, Entered(c, v, b, s.pen, s.peak, k), k, Day(c, v, s, k));
    hide FillExits, Entered, GoOver, Chosen, EquityNow, PeakNow;
  }

  /** So goes every day of the replay, from 1000 in cash and nothing else. */
  lemma DaysGo(c: Params, assets: seq<seq<Bar>>, n: nat)
    requires AllSorted(assets) && n < |Days(assets)|
    ensures After(c, assets, 0) == Sim(Book(1000.0, [], []), [], [], 1000.0, [])
    ensures DayGoes(c, assets, After(c, assets, n), n, After(c, assets, n + 1))
  {
    hide Days, ViewOn, AllSorted, DayGoes, Day;
    OneDay(c, assets, After(c, assets, n), n);
  }
}
