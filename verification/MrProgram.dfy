/** The mean-reversion replay as the day loop it is, proved to compute the replay's specification. */
module MrProgram {
  import opened Basics
  import opened ReplayCalendar
  import Ranking
  import opened MrReplay
  import opened MrBounds

  /** A queued exit at the open: price, proceeds, trade record, position gone. */
  method FillOneExit(c: Setup, b: Book, sym: nat, k: nat) returns (after: Book)
    requires Usable(c) && BookFits(c, b) && k < |c.calendar|
    ensures after == FillExit(c, b, sym, k)
  {
    var at := Held(b.open, sym);
    HeldIs(b.open, sym);
    if at.None? {
      return b;
    }
    var p := b.open[at.value];
    var j := BarAt(c, sym, k);
    var op := if j.Some? then c.assets[sym].open[j.value] else Some(c.assets[sym].close[p.ei]);
    if !(op.Some? && op.value > 0.0) {
      op := Some(if j.Some? then c.assets[sym].close[j.value] else p.fill);
    }
    var sell := Times(op.value, 1.0 - c.slip);
    var proceeds := Times(Times(p.qty, sell), 1.0 - c.fee);
    var cost := Times(Times(p.qty, p.fill), 1.0 + c.fee);
    TimesPositive(p.qty, p.fill);
    TimesPositive(Times(p.qty, p.fill), 1.0 + c.fee);
    var trade := Trade(sym, p.entered, k, p.fill, sell, p.qty, proceeds / cost - 1.0, proceeds - cost);
    after := Book(b.cash + proceeds, b.open[..at.value] + b.open[at.value + 1..], b.trades + [trade]);
  }

  method FillQueuedExits(c: Setup, b: Book, exits: seq<nat>, k: nat) returns (after: Book)
    requires Usable(c) && BookFits(c, b) && k < |c.calendar|
    ensures after == FillExits(c, b, exits, k)
  {
    after := b;
    var i := 0;
    while i < |exits|
      invariant 0 <= i <= |exits| && BookFits(c, after)
      invariant after == FillExits(c, b, exits[..i], k)
    {
      assert exits[..i + 1][..i] == exits[..i];
      after := FillOneExit(c, after, exits[i], k);
      i := i + 1;
    }
    assert exits[..i] == exits;
  }

  /** Queued entries at the open, in rank order, bounded by the cap and by cash. */
  method FillQueuedEntries(c: Setup, b: Book, entries: seq<Order>, k: nat) returns (after: Book)
    requires Usable(c) && BookFits(c, b) && OrdersFit(c, entries) && k < |c.calendar|
    ensures after == FillEntries(c, b, entries, k)
  {
    after := b;
    var i := 0;
    while i < |entries|
      invariant 0 <= i <= |entries| && BookFits(c, after)
      invariant FillEntries(c, after, entries[i..], k) == FillEntries(c, b, entries, k)
    {
      if |after.open| >= MAX_POS {
        return;
      }
      assert entries[i..][0] == entries[i] && entries[i..][1..] == entries[i + 1..];
      after := FillOneEntry(c, after, entries[i], k);
      i := i + 1;
    }
  }

  method FillOneEntry(c: Setup, b: Book, o: Order, k: nat) returns (after: Book)
    requires Usable(c) && Refers(c, o.sym, o.ei) && k < |c.calendar|
    ensures after == FillEntry(c, b, o, k)
  {
    after := b;
    if Held(b.open, o.sym).Some? {
      return;
    }
    var j := BarAt(c, o.sym, k);
    if j.None? {
      return;
    }
    var op := c.assets[o.sym].open[j.value];
    if !(op.Some? && op.value > 0.0) {
      return;
    }
    var buy := Times(op.value, 1.0 + c.slip);
    TimesPositive(op.value, 1.0 + c.slip);
    var spend := SLICE;
    if spend > b.cash {
      spend := b.cash;
    }
    if spend < 1.0 {
      return;
    }
    QtyPositive(spend, buy);
    var qty := spend / buy;
    var cash := b.cash - Times(Times(qty, buy), 1.0 + c.fee);
    after := Book(cash, b.open + [Position(o.sym, buy, qty, o.ei, k, c.assets[o.sym].close[o.ei])], b.trades);
  }

  /** Cash and open positions at the day's close. */
  method MarkToMarket(c: Setup, b: Book, k: nat) returns (mtm: real)
    requires Usable(c) && BookFits(c, b) && k < |c.calendar|
    ensures mtm == b.cash + Marked(c, b.open, k)
  {
    mtm := b.cash;
    var i := 0;
    while i < |b.open|
      invariant 0 <= i <= |b.open|
      invariant mtm == b.cash + Marked(c, b.open[..i], k)
    {
      assert b.open[..i + 1][..i] == b.open[..i];
      var p := b.open[i];
      var j := BarAt(c, p.sym, k);
      var px := if j.Some? then c.assets[p.sym].close[j.value] else p.fill;
      if px > 0.0 {
        mtm := mtm + Times(p.qty, px);
      }
      i := i + 1;
    }
    assert b.open[..i] == b.open;
  }

  method QueueExits(c: Setup, b: Book, k: nat) returns (exits: seq<nat>)
    requires Usable(c) && BookFits(c, b) && k < |c.calendar|
    ensures exits == ExitSignals(c, b.open, k)
  {
    exits := [];
    var i := 0;
    while i < |b.open|
      invariant 0 <= i <= |b.open|
      invariant exits == ExitSignals(c, b.open[..i], k)
    {
      assert b.open[..i + 1][..i] == b.open[..i];
      var p := b.open[i];
      var j := BarAt(c, p.sym, k);
      if j.Some? && j.value >= c.warm && c.strat.exit(p.sym, j.value, p.ei, p.close) {
        exits := exits + [p.sym];
      }
      i := i + 1;
    }
    assert b.open[..i] == b.open;
  }

  method QueueEntries(c: Setup, b: Book, exits: seq<nat>, k: nat) returns (entries: seq<Order>)
    requires Usable(c) && k < |c.calendar|
    ensures entries == Chosen(c, b.open, exits, k)
  {
    var free := MAX_POS - (|b.open| - |exits|);
    if free <= 0 {
      return [];
    }
    var cands := [];
    var sym := 0;
    while sym < |c.assets|
      invariant 0 <= sym <= |c.assets|
      invariant cands == Candidates(c, b.open, k, sym)
    {
      if Held(b.open, sym).None? {
        var j := BarAt(c, sym, k);
        if j.Some? && j.value >= c.warm && c.strat.entry(sym, j.value) {
          cands := cands + [Order(sym, j.value)];
        }
      }
      sym := sym + 1;
    }
    entries := Ranking.Best(RankKey(c), cands, free);
  }

  method DayOf(c: Setup, s: Sim, k: nat) returns (next: Sim)
    requires Usable(c) && SimFits(c, s) && k < |c.calendar|
    ensures next == Day(c, s, k)
  {
    hide FillExits, FillEntries, ExitSignals, Chosen, Marked;
    var mid := FillQueuedExits(c, s.book, s.exits, k);
    var b := FillQueuedEntries(c, mid, s.entries, k);
    var mtm := MarkToMarket(c, b, k);
    var exits := QueueExits(c, b, k);
    var entries := QueueEntries(c, b, exits, k);
    next := Sim(b, exits, entries, s.equity + [mtm]);
  }

  /** The whole replay: closed trades, the equity curve and the number of days. */
  method Replay(assets: seq<Asset>, strat: Strategy, slip: real, fee: real, warm: nat)
    returns (trades: seq<Trade>, equity: seq<real>, days: nat)
    requires ShapesFit(assets) && 0.0 <= slip <= 1.0 && 0.0 <= fee <= 1.0
    ensures var calendar := Calendar(seq(|assets|, i requires 0 <= i < |assets| => assets[i].dates));
      var s := After(Setup(assets, calendar, strat, slip, fee, warm), |calendar|);
      && days == |calendar| == |equity| && trades == s.book.trades && equity == s.equity
    ensures forall t :: t in trades ==> t.entered < t.exited < days
  {
    var calendar := Calendar(seq(|assets|, i requires 0 <= i < |assets| => assets[i].dates));
    var c := Setup(assets, calendar, strat, slip, fee, warm);
    var s := START;
    var k := 0;
    while k < |calendar|
      invariant 0 <= k <= |calendar|
      invariant SimFits(c, s) && s == After(c, k) && |s.equity| == k
    {
      s := DayOf(c, s, k);
      k := k + 1;
    }
    NoLookAhead(c, k);
    trades, equity, days := s.book.trades, s.equity, |calendar|;
  }
}
