/** The trend replay as the day loop it is, proved to compute the replay's specification. */
module DrProgram {
  import opened Basics
  import opened ReplayCalendar
  import Ranking
  import opened DrReplay
  import opened DrLedger

  method FillOneExit(v: View, b: Book, sym: nat, k: nat) returns (after: Book)
    requires Known(v, b.op)
    ensures after == FillExit(v, b, sym, k)
  {
    var i := Held(b.op, sym);
    if i.None? {
      return b;
    }
    var p := b.op[i.value];
    var o := if v[sym].Some? then v[sym].value.open else Some(p.e);
    if !(o.Some? && o.value > 0.0) {
      o := Some(p.e);
    }
    var sell := Times(o.value, 1.0 - SLIP);
    var proceeds := Times(Times(p.qty, sell), 1.0 - FEE_SIDE);
    var cost := Times(Times(p.qty, p.e), 1.0 + FEE_SIDE);
    var t := Trade(sym, p.k, k, p.e, sell, p.sz, p.qty, proceeds - cost, Round2(proceeds - cost));
    after := Book(b.cash + proceeds, b.op[..i.value] + b.op[i.value + 1..], b.trades + [t]);
  }

  method FillPendingExits(v: View, b: Book, pe: seq<nat>, k: nat) returns (after: Book)
    requires Known(v, b.op)
    ensures after == FillExits(v, b, pe, k)
  {
    after := b;
    var i := 0;
    while i < |pe|
      invariant 0 <= i <= |pe| && Known(v, after.op)
      invariant after == FillExits(v, b, pe[..i], k)
    {
      assert pe[..i + 1][..i] == pe[..i];
      after := FillOneExit(v, after, pe[i], k);
      i := i + 1;
    }
    assert pe[..i] == pe;
  }

  method Equity(v: View, b: Book) returns (m: real)
    requires Known(v, b.op)
    ensures m == EquityNow(v, b)
  {
    m := b.cash;
    var i := 0;
    while i < |b.op|
      invariant 0 <= i <= |b.op|
      invariant m == b.cash + Marked(v, b.op[..i])
    {
      assert b.op[..i + 1][..i] == b.op[..i];
      var p := b.op[i];
      var px := if v[p.sym].Some? then v[p.sym].value.close else p.e;
      if px > 0.0 {
        m := m + Times(p.qty, px);
      }
      i := i + 1;
    }
    assert b.op[..i] == b.op;
  }

  method FillOneEntry(c: Params, v: View, f: Filling, sym: nat, equity: real, riskMult: real, k: nat) returns (after: Filling)
    requires Known(v, f.book.op) && sym < |v|
    ensures after == FillEntry(c, v, f, sym, equity, riskMult, k)
  {
    after := f;
    if Held(f.book.op, sym).Some? || v[sym].None? {
      return;
    }
    var q := v[sym].value;
    if !(q.open.Some? && q.open.value > 0.0) {
      return;
    }
    var base := Times(Times(c.perFrac, equity), riskMult);
    if c.volTarget {
      var apct := if q.atrpct > 0.0 then q.atrpct else 0.05;
      base := Times(base, Min(1.5, Max(0.3, TARGET_VOL / apct)));
    }
    var avail := Times(c.expoCap, equity) - f.deployed;
    var sp := Min(base, Min(avail, f.book.cash));
    if sp < 0.01 {
      return;
    }
    BuyPositive(q.open.value);
    var buy := Times(q.open.value, 1.0 + SLIP);
    QtyPositive(sp, buy);
    var p := Position(sym, buy, sp / buy, k, sp, k, buy);
    var cash := f.book.cash - Times(Times(sp / buy, buy), 1.0 + FEE_SIDE);
    after := Filling(Book(cash, f.book.op + [p], f.book.trades), f.deployed + sp);
  }

  method FillPendingEntries(c: Params, v: View, f: Filling, pen: seq<nat>, equity: real, riskMult: real, k: nat) returns (after: Filling)
    requires Known(v, f.book.op) && AllKnown(v, pen)
    ensures after == FillEntries(c, v, f, pen, equity, riskMult, k)
  {
    after := f;
    var i := 0;
    while i < |pen|
      invariant 0 <= i <= |pen| && Known(v, after.book.op)
      invariant FillEntries(c, v, after, pen[i..], equity, riskMult, k) == FillEntries(c, v, f, pen, equity, riskMult, k)
    {
      if |after.book.op| >= MAX_POS {
        return;
      }
      assert pen[i..][0] == pen[i] && pen[i..][1..] == pen[i + 1..];
      after := FillOneEntry(c, v, after, pen[i], equity, riskMult, k);
      i := i + 1;
    }
  }

  /** Every position once: refresh it, close it if its data stopped, or queue its exit. */
  method GoOverPositions(v: View, b: Book, k: nat) returns (e: Evening)
    requires Known(v, b.op)
    ensures e == GoOver(v, b, |b.op|, k)
  {
    var cash, op, trades, pe := b.cash, [], b.trades, [];
    var i := 0;
    while i < |b.op|
      invariant 0 <= i <= |b.op|
      invariant Evening(Book(cash, op, trades), pe) == GoOver(v, b, i, k)
    {
      var p := b.op[i];
      if v[p.sym].Some? {
        p := p.(seen := k, lastpx := v[p.sym].value.close);
      }
      if k - p.seen > GAP {
        var sell := Times(p.lastpx, 1.0 - SLIP);
        var proceeds := Times(Times(p.qty, sell), 1.0 - FEE_SIDE);
        var cost := Times(Times(p.qty, p.e), 1.0 + FEE_SIDE);
        cash := cash + proceeds;
        trades := trades + [Trade(p.sym, p.k, k, p.e, sell, p.sz, p.qty, proceeds - cost, Round2(proceeds - cost))];
      } else {
        op := op + [p];
        if v[p.sym].Some? && v[p.sym].value.j >= WARM {
          var q := v[p.sym].value;
          if (q.chand.Some? && q.close < q.chand.value) || (q.sma200.Some? && q.close < q.sma200.value) {
            if p.sym !in pe {
              pe := pe + [p.sym];
            }
          }
        }
      }
      i := i + 1;
    }
    e := Evening(Book(cash, op, trades), pe);
  }

  method QueueEntries(v: View, op: seq<Position>, pe: seq<nat>) returns (pen: seq<nat>)
    ensures pen == Chosen(v, op, pe)
  {
    var free := MAX_POS - (|op| - |pe|);
    var cands := [];
    var sym := 0;
    while sym < |v|
      invariant 0 <= sym <= |v|
      invariant cands == Candidates(v, op, sym)
    {
      if Held(op, sym).None? && v[sym].Some? && v[sym].value.j >= WARM {
        var q := v[sym].value;
        if !(q.donch.None? || q.close <= q.donch.value || (q.sma200.Some? && q.close <= q.sma200.value)) {
          cands := cands + [Cand(sym, q.close - q.donch.value)];
        }
      }
      sym := sym + 1;
    }
    pen := Syms(Ranking.Best(RankKey, cands, free));
  }

  method DayOf(c: Params, v: View, s: Sim, k: nat) returns (next: Sim)
    requires Fits(v, s)
    ensures next == Day(c, v, s, k)
  {
    hide FillExits, FillEntries, GoOver, Chosen, EquityNow;
    var b := FillPendingExits(v, s.book, s.pe, k);
    var equity := Equity(v, b);
    var peak: Positive := Max(s.peak, equity);
    var riskMult := 1.0;
    if c.ddGuard.Some? && equity / peak - 1.0 < 0.0 - c.ddGuard.value {
      riskMult := 0.5;
    }
    var f := FillPendingEntries(c, v, Filling(b, equity - b.cash), s.pen, equity, riskMult, k);
    var mark := Equity(v, f.book);
    var e := GoOverPositions(v, f.book, k);
    var pen := QueueEntries(v, e.book.op, e.pe);
    next := Sim(e.book, e.pe, pen, peak, s.eq + [mark]);
  }

  method Liquidate(v: View, b: Book, k: nat) returns (after: Book)
    requires Known(v, b.op)
    ensures after == Liquidated(v, b, |b.op|, k)
  {
    var cash, trades := b.cash, b.trades;
    var i := 0;
    while i < |b.op|
      invariant 0 <= i <= |b.op|
      invariant Book(cash, [], trades) == Liquidated(v, b, i, k)
    {
      var p := b.op[i];
      var px := if v[p.sym].Some? then v[p.sym].value.close else p.e;
      var sell := Times(px, 1.0 - SLIP);
      var proceeds := Times(Times(p.qty, sell), 1.0 - FEE_SIDE);
      var cost := Times(Times(p.qty, p.e), 1.0 + FEE_SIDE);
      cash := cash + proceeds;
      trades := trades + [Trade(p.sym, p.k, k, p.e, sell, p.sz, p.qty, proceeds - cost, Round2(proceeds - cost))];
      i := i + 1;
    }
    after := Book(cash, [], trades);
  }

  /** The whole run: final cash, log in the order of closing, equity curve; all money accounted for. */
  method Run(c: Params, assets: seq<seq<Bar>>) returns (cash: real, trades: seq<Trade>, eq: seq<real>)
    requires Days(assets) != []
    ensures cash == Final(c, assets).cash && trades == Final(c, assets).trades
    ensures eq == After(c, assets, |Days(assets)|).eq
    ensures cash == NAV0 + Profit(trades) && Abs(NAV0 + LogSum(trades) - cash) <= 0.005 * |trades| as real
  {
    hide Days, Day, QuoteOn, Liquidated, LogSum, Profit, Rounded;
    var days := Days(assets);
    var s := START;
    var k := 0;
    while k < |days|
      invariant 0 <= k <= |days|
      invariant FitsAll(|assets|, s) && s == After(c, assets, k)
    {
      s := DayOf(c, ViewOn(assets, days[k]), s, k);
      k := k + 1;
    }
    var b := Liquidate(ViewOn(assets, days[|days| - 1]), s.book, |days| - 1);
    FinalCash(c, assets);
    LogEndsNearCash(c, assets, b.trades);
    cash, trades, eq := b.cash, b.trades, s.eq;
  }
}
