/**
 What the mean-reversion replay's fills, marks and signals are, read off the price
 series: every entry at the open of its day with slippage, every exit at the open of
 its day, and what stands in where a price is missing.
 */
module MrFills {
  import opened Basics
  import opened ReplayCalendar
  import opened MrReplay
  import opened MrBounds

  /** The asset's bar on day k. */
  predicate BarOf(c: Setup, sym: nat, k: int, j: int) {
    sym < |c.assets| && 0 <= k < |c.calendar| && 0 <= j < |c.assets[sym].dates| && c.assets[sym].dates[j] == c.calendar[k]
  }

  /** One bar a day, in order, as the loader leaves them. */
  ghost predicate DatesSorted(c: Setup) {
    forall a :: 0 <= a < |c.assets| ==> Increasing(c.assets[a].dates)
  }

  lemma BarIs(c: Setup, sym: nat, k: nat, j: nat)
    requires ShapesFit(c.assets) && DatesSorted(c) && BarOf(c, sym, k, j)
    ensures BarAt(c, sym, k) == Some(j)
  {
    BarOnIs(c.assets[sym].dates, c.calendar[k], j);
  }

  lemma NoBar(c: Setup, sym: nat, k: nat)
    requires ShapesFit(c.assets) && sym < |c.assets| && k < |c.calendar|
    ensures BarAt(c, sym, k).None? <==> forall j :: !BarOf(c, sym, k, j)
    ensures BarAt(c, sym, k).Some? ==> BarOf(c, sym, k, BarAt(c, sym, k).value)
  {
    var d := c.assets[sym].dates;
    if BarAt(c, sym, k).None? {
      assert c.calendar[k] !in d;
      forall j
        ensures !BarOf(c, sym, k, j)
      {
        assert 0 <= j < |d| ==> d[j] in d;
      }
    } else {
      assert BarOf(c, sym, k, BarAt(c, sym, k).value);
    }
  }

  // ── Prices ──────────────────────────────────────────────────────────────

  /** Bought on day k at that day's open, slippage on top. */
  ghost predicate BoughtAt(c: Setup, sym: nat, fill: real, k: int) {
    && ShapesFit(c.assets)
    && exists j :: BarOf(c, sym, k, j) && c.assets[sym].open[j].Some? && c.assets[sym].open[j].value > 0.0
         && fill == c.assets[sym].open[j].value * (1.0 + c.slip)
  }

  /**
   Sold on day k, slippage taken off: at that day's open; at its close if there is no
   positive open; without a bar at the close of the signal's bar, or for what was paid.
   */
  ghost predicate SoldAt(c: Setup, sym: nat, ei: nat, fill: real, exitFill: real, k: int)
    requires ShapesFit(c.assets) && Refers(c, sym, ei)
  {
    var a := c.assets[sym];
    && (forall j :: BarOf(c, sym, k, j) && a.open[j].Some? && a.open[j].value > 0.0 ==> exitFill == a.open[j].value * (1.0 - c.slip))
    && (forall j :: BarOf(c, sym, k, j) && (a.open[j].None? || a.open[j].value <= 0.0) ==> exitFill == a.close[j] * (1.0 - c.slip))
    && ((forall j :: !BarOf(c, sym, k, j)) ==> exitFill == (if a.close[ei] > 0.0 then a.close[ei] else fill) * (1.0 - c.slip))
  }

  /** The signal was the bar of the day before the entry. */
  ghost predicate PositionPriced(c: Setup, p: Position) {
    && Refers(c, p.sym, p.ei) && BarOf(c, p.sym, p.entered - 1, p.ei) && p.close == c.assets[p.sym].close[p.ei]
    && BoughtAt(c, p.sym, p.fill, p.entered)
  }

  /** Both fills at the prices of their days; the profit is what came in less what was paid, fees on both sides. */
  ghost predicate TradePriced(c: Setup, t: Trade) {
    && BoughtAt(c, t.sym, t.fill, t.entered)
    && (exists ei: nat :: Refers(c, t.sym, ei) && BarOf(c, t.sym, t.entered - 1, ei) && SoldAt(c, t.sym, ei, t.fill, t.exitFill, t.exited))
    && t.pnl == t.qty * t.exitFill * (1.0 - c.fee) - t.qty * t.fill * (1.0 + c.fee)
    && (t.ret + 1.0) * (t.qty * t.fill * (1.0 + c.fee)) == t.qty * t.exitFill * (1.0 - c.fee)
  }

  ghost predicate Priced(c: Setup, b: Book) {
    && (forall p :: p in b.open ==> PositionPriced(c, p))
    && (forall t :: t in b.trades ==> TradePriced(c, t))
  }

  // ── Steps ───────────────────────────────────────────────────────────────

  lemma SoldAtOpen(c: Setup, p: Position, k: nat)
    requires Usable(c) && DatesSorted(c) && Refers(c, p.sym, p.ei) && k < |c.calendar|
    ensures SoldAt(c, p.sym, p.ei, p.fill, SellPrice(c, p, k), k)
  {
    NoBar(c, p.sym, k);
    forall j | BarOf(c, p.sym, k, j)
      ensures BarAt(c, p.sym, k) == Some(j)
    {
      BarIs(c, p.sym, k, j);
    }
    hide BarAt;
  }

  lemma QuotientOf(x: real, y: real)
    requires y > 0.0
    ensures (x / y - 1.0 + 1.0) * y == x
  {}

  lemma ClosedPriced(c: Setup, p: Position, k: nat)
    requires Usable(c) && DatesSorted(c) && PositionPriced(c, p) && k < |c.calendar|
    ensures TradePriced(c, Closed(c, p, k))
  {
    var t := Closed(c, p, k);
    SoldAtOpen(c, p, k);
    TimesPositive(p.qty, p.fill);
    TimesPositive(Times(p.qty, p.fill), 1.0 + c.fee);
    QuotientOf(Proceeds(c, p, k), Cost(p, c.fee));
    assert Cost(p, c.fee) == t.qty * t.fill * (1.0 + c.fee);
    assert Proceeds(c, p, k) == t.qty * t.exitFill * (1.0 - c.fee);
    hide SoldAt, BoughtAt, SellPrice, Cost, Proceeds;
  }

  lemma ExitPriced(c: Setup, b: Book, sym: nat, k: nat)
    requires Usable(c) && DatesSorted(c) && BookFits(c, b) && k < |c.calendar| && Priced(c, b)
    ensures Priced(c, FillExit(c, b, sym, k))
  {
    HeldIs(b.open, sym);
    if Held(b.open, sym).Some? {
      var i := Held(b.open, sym).value;
      assert b.open[i] in b.open;
      ClosedPriced(c, b.open[i], k);
    }
    hide Held, PositionPriced, TradePriced, Closed, Proceeds;
  }

  lemma {:induction false} ExitsPriced(c: Setup, b: Book, exits: seq<nat>, k: nat)
    requires Usable(c) && DatesSorted(c) && BookFits(c, b) && k < |c.calendar| && Priced(c, b)
    ensures Priced(c, FillExits(c, b, exits, k))
  {
    hide FillExit, Priced;
    if exits != [] {
      ExitsPriced(c, b, exits[..|exits| - 1], k);
      ExitPriced(c, FillExits(c, b, exits[..|exits| - 1], k), exits[|exits| - 1], k);
    }
  }

  /** The smaller of a full slice, an eighth of 100000, and the cash. */
  function Stake(cash: real): real {
    if cash < 12500.0 then cash else 12500.0
  }

  /** An entry can be filled: not held, a bar with a positive open today, at least one unit of money to spend. */
  ghost predicate CanBuy(c: Setup, b: Book, o: Order, k: nat)
    requires ShapesFit(c.assets)
  {
    && !Holds(b.open, o.sym) && Stake(b.cash) >= 1.0
    && exists j :: BarOf(c, o.sym, k, j) && c.assets[o.sym].open[j].Some? && c.assets[o.sym].open[j].value > 0.0
  }

  /** An entry: at the open, for the stake, with the fee on top; or nothing happens. */
  lemma EntryIs(c: Setup, b: Book, o: Order, k: nat)
    requires Usable(c) && DatesSorted(c) && Refers(c, o.sym, o.ei) && k < |c.calendar|
    ensures var b' := FillEntry(c, b, o, k);
      if !CanBuy(c, b, o, k) then b' == b
      else
        && |b'.open| == |b.open| + 1 && b'.open[..|b.open|] == b.open && b'.trades == b.trades
        && var p := b'.open[|b.open|];
           && p.sym == o.sym && p.ei == o.ei && p.entered == k && p.close == c.assets[o.sym].close[o.ei]
           && BoughtAt(c, o.sym, p.fill, k) && p.qty * p.fill == Stake(b.cash)
           && b'.cash == b.cash - Stake(b.cash) * (1.0 + c.fee)
  {
    HeldHolds(b.open, o.sym);
    NoBar(c, o.sym, k);
    forall j | BarOf(c, o.sym, k, j)
      ensures BarAt(c, o.sym, k) == Some(j)
    {
      BarIs(c, o.sym, k, j);
    }
    hide BarAt, Held, Holds;
    var b' := FillEntry(c, b, o, k);
    if CanBuy(c, b, o, k) {
      var j := BarAt(c, o.sym, k).value;
      var buy := Times(c.assets[o.sym].open[j].value, 1.0 + c.slip);
      TimesPositive(c.assets[o.sym].open[j].value, 1.0 + c.slip);
      assert b' == Bought(c, b, o, k, buy, Stake(b.cash));
      QtyPositive(Stake(b.cash), buy);
      BoughtIs(c, b, o, k, buy, Stake(b.cash));
    }
  }

  lemma BoughtIs(c: Setup, b: Book, o: Order, k: nat, buy: Positive, spend: Positive)
    requires Refers(c, o.sym, o.ei)
    ensures var b' := Bought(c, b, o, k, buy, spend);
      && |b'.open| == |b.open| + 1 && b'.open[..|b.open|] == b.open && b'.trades == b.trades
      && var p := b'.open[|b.open|];
         && p.sym == o.sym && p.ei == o.ei && p.entered == k && p.close == c.assets[o.sym].close[o.ei] && p.fill == buy
         && p.qty * p.fill == spend && b'.cash == b.cash - spend * (1.0 + c.fee)
  {
    QtyPositive(spend, buy);
  }

  lemma EntryPriced(c: Setup, b: Book, o: Order, k: nat)
    requires Usable(c) && DatesSorted(c) && BookFits(c, b) && Refers(c, o.sym, o.ei) && k < |c.calendar| && Priced(c, b)
    requires BarOf(c, o.sym, k - 1, o.ei)
    ensures Priced(c, FillEntry(c, b, o, k))
  {
    EntryIs(c, b, o, k);
    var b' := FillEntry(c, b, o, k);
    hide FillEntry, BoughtAt, TradePriced;
    forall p | p in b'.open
      ensures PositionPriced(c, p)
    {
      if p !in b.open {
        var i :| 0 <= i < |b'.open| && b'.open[i] == p;
        assert i < |b.open| ==> b'.open[..|b.open|][i] == b.open[i];
      }
    }
  }

  lemma {:induction false} EntriesPriced(c: Setup, b: Book, entries: seq<Order>, k: nat)
    requires Usable(c) && DatesSorted(c) && BookFits(c, b) && OrdersFit(c, entries) && k < |c.calendar| && Priced(c, b)
    requires forall o :: o in entries ==> BarOf(c, o.sym, k - 1, o.ei)
    ensures Priced(c, FillEntries(c, b, entries, k))
    decreases |entries|
  {
    if entries != [] && |b.open| < MAX_POS {
      assert BookFits(c, FillEntry(c, b, entries[0], k));
      hide FillEntry, Priced;
      assert entries[0] in entries;
      EntryPriced(c, b, entries[0], k);
      assert forall o :: o in entries[1..] ==> o in entries;
      EntriesPriced(c, FillEntry(c, b, entries[0], k), entries[1..], k);
    }
  }

  // ── Over all days ───────────────────────────────────────────────────────

  lemma SignalledBars(c: Setup, s: Sim, n: nat)
    requires Usable(c) && InOrder(c, s, n)
    ensures forall o :: o in s.entries ==> BarOf(c, o.sym, n - 1, o.ei)
  {
    hide BarOn;
  }

  lemma DayPriced(c: Setup, s: Sim, k: nat)
    requires Usable(c) && DatesSorted(c) && k < |c.calendar| && SimFits(c, s) && InOrder(c, s, k) && Priced(c, s.book)
    ensures Priced(c, Day(c, s, k).book)
  {
    SignalledBars(c, s, k);
    hide InOrder, BarOf, Priced, DatesSorted, Usable;
    ExitsPriced(c, s.book, s.exits, k);
    EntriesPriced(c, FillExits(c, s.book, s.exits, k), s.entries, k);
    hide FillExits, FillEntries, ExitSignals, Chosen, Marked;
  }

  lemma StartPriced(c: Setup)
    requires Usable(c)
    ensures Priced(c, START.book)
  {}

  lemma AfterOneMore(c: Setup, n: nat)
    requires Usable(c) && n < |c.calendar|
    ensures After(c, n + 1) == Day(c, After(c, n), n)
  {
    hide Day;
  }

  lemma OneMorePriced(c: Setup, n: nat)
    requires Usable(c) && DatesSorted(c) && n < |c.calendar| && Priced(c, After(c, n).book)
    ensures Priced(c, After(c, n + 1).book)
  {
    AfterOneMore(c, n);
    hide *;
    NoLookAhead(c, n);
    DayPriced(c, After(c, n), n);
  }

  lemma NonePriced(c: Setup)
    requires Usable(c)
    ensures Priced(c, After(c, 0).book)
  {}

  lemma {:induction false} AlwaysPriced(c: Setup, n: nat)
    requires Usable(c) && DatesSorted(c) && n <= |c.calendar|
    ensures Priced(c, After(c, n).book)
  {
    hide *;
    if n == 0 {
      NonePriced(c);
    } else {
      AlwaysPriced(c, n - 1);
      OneMorePriced(c, n - 1);
    }
  }

  /** Every position and every trade of the replay, after any number of days, has the prices of its days. */
  lemma FillsArePriced(c: Setup, n: nat)
    requires Usable(c) && DatesSorted(c) && n <= |c.calendar|
    ensures forall p :: p in After(c, n).book.open ==> PositionPriced(c, p)
    ensures forall t :: t in After(c, n).book.trades ==> TradePriced(c, t)
  {
    AlwaysPriced(c, n);
    hide PositionPriced, TradePriced, After, Usable;
  }

  // ── The curve ───────────────────────────────────────────────────────────

  /** What a position is worth on day k: its quantity at the close, or at what was paid without a bar; never less than nothing. */
  ghost predicate WorthIs(c: Setup, p: Position, k: int, w: real)
    requires ShapesFit(c.assets)
  {
    && (forall j :: BarOf(c, p.sym, k, j) ==> w == if c.assets[p.sym].close[j] > 0.0 then p.qty * c.assets[p.sym].close[j] else 0.0)
    && ((forall j :: !BarOf(c, p.sym, k, j)) ==> w == p.qty * p.fill)
  }

  function Sum(ws: seq<real>): real {
    if ws == [] then 0.0 else Sum(ws[..|ws| - 1]) + ws[|ws| - 1]
  }

  lemma MarkIs(c: Setup, p: Position, k: nat)
    requires Usable(c) && DatesSorted(c) && k < |c.calendar| && Refers(c, p.sym, p.ei)
    ensures WorthIs(c, p, k, Mark(c, p, k))
  {
    NoBar(c, p.sym, k);
    forall j | BarOf(c, p.sym, k, j)
      ensures BarAt(c, p.sym, k) == Some(j)
    {
      BarIs(c, p.sym, k, j);
    }
    hide BarAt;
  }

  lemma {:induction false} MarkedIs(c: Setup, open: seq<Position>, k: nat) returns (ws: seq<real>)
    requires Usable(c) && DatesSorted(c) && k < |c.calendar| && forall i :: 0 <= i < |open| ==> Refers(c, open[i].sym, open[i].ei)
    ensures |ws| == |open| && Sum(ws) == Marked(c, open, k) && forall i :: 0 <= i < |ws| ==> WorthIs(c, open[i], k, ws[i])
  {
    ws := [];
    hide WorthIs, Mark, DatesSorted;
    if open != [] {
      var p := open[|open| - 1];
      var front := MarkedIs(c, open[..|open| - 1], k);
      MarkIs(c, p, k);
      ws := front + [Mark(c, p, k)];
      assert ws[..|ws| - 1] == front;
    }
  }

  /** The equity of a book on day k: the cash and the worth of each open position. */
  ghost predicate EquityIs(c: Setup, b: Book, k: int, equity: real)
    requires ShapesFit(c.assets)
  {
    exists ws: seq<real> :: |ws| == |b.open| && (forall i :: 0 <= i < |ws| ==> WorthIs(c, b.open[i], k, ws[i])) && equity == b.cash + Sum(ws)
  }

  lemma OneMoreEquity(c: Setup, s: Sim, k: nat)
    requires Usable(c) && DatesSorted(c) && k < |c.calendar| && SimFits(c, s)
    ensures var s' := Day(c, s, k);
      |s'.equity| == |s.equity| + 1 && s'.equity[..|s.equity|] == s.equity && EquityIs(c, s'.book, k, s'.equity[|s.equity|])
  {
    var s' := Day(c, s, k);
    var ws := MarkedIs(c, s'.book.open, k);
    hide WorthIs, Marked, FillExits, FillEntries, ExitSignals, Chosen, DatesSorted;
  }

  lemma {:induction false} LengthIs(c: Setup, n: nat)
    requires Usable(c) && n <= |c.calendar|
    ensures |After(c, n).equity| == n
  {
    if n > 0 {
      LengthIs(c, n - 1);
      AfterOneMore(c, n - 1);
      hide Usable, After, FillExits, FillEntries, Chosen, ExitSignals, Marked;
    }
  }

  lemma CurveGrows(c: Setup, n: nat, k: nat)
    requires Usable(c) && DatesSorted(c) && k <= n < |c.calendar|
    ensures |After(c, n).equity| == n && |After(c, n + 1).equity| == n + 1
    ensures k < n ==> After(c, n + 1).equity[k] == After(c, n).equity[k]
    ensures k == n ==> EquityIs(c, After(c, k + 1).book, k, After(c, n + 1).equity[k])
  {
    LengthIs(c, n);
    OneMoreEquity(c, After(c, n), n);
    AfterOneMore(c, n);
    hide Day, EquityIs, DatesSorted, Usable, After;
    assert k < n ==> After(c, n + 1).equity[..n][k] == After(c, n + 1).equity[k];
  }

  /** The curve has, for every day, the equity of the book at its end. */
  lemma {:induction false} CurveIs(c: Setup, n: nat, k: nat)
    requires Usable(c) && DatesSorted(c) && k < n <= |c.calendar|
    ensures |After(c, n).equity| == n && EquityIs(c, After(c, k + 1).book, k, After(c, n).equity[k])
  {
    hide *;
    CurveGrows(c, n - 1, k);
    if k < n - 1 {
      CurveIs(c, n - 1, k);
    }
  }

  /** The replay starts with 100000 in cash and nothing else. */
  lemma StartIs(c: Setup)
    requires Usable(c)
    ensures After(c, 0) == Sim(Book(100000.0, [], []), [], [], [])
  {}

  // ── Signals ─────────────────────────────────────────────────────────────

  /** An exit is queued exactly for the held assets whose bar today, past the warm-up, meets the exit rule for their entry. */
  lemma {:induction false} ExitQueuedIff(c: Setup, open: seq<Position>, k: nat, sym: nat)
    requires Usable(c) && DatesSorted(c) && k < |c.calendar| && forall i :: 0 <= i < |open| ==> Refers(c, open[i].sym, open[i].ei)
    ensures sym in ExitSignals(c, open, k) <==>
      exists i, j :: 0 <= i < |open| && open[i].sym == sym && BarOf(c, sym, k, j) && j >= c.warm && c.strat.exit(sym, j, open[i].ei, open[i].close)
  {
    if open != [] {
      var front, p := open[..|open| - 1], open[|open| - 1];
      ExitQueuedIff(c, front, k, sym);
      assert forall i :: 0 <= i < |front| ==> front[i] == open[i];
      NoBar(c, p.sym, k);
      forall j | BarOf(c, p.sym, k, j)
        ensures BarAt(c, p.sym, k) == Some(j)
      {
        BarIs(c, p.sym, k, j);
      }
      hide BarAt, BarOf;
    }
  }

  /** A candidate is exactly an asset not held whose bar today, past the warm-up, meets the entry rule. */
  lemma {:induction false} CandidateIff(c: Setup, open: seq<Position>, k: nat, n: nat, o: Order)
    requires Usable(c) && DatesSorted(c) && n <= |c.assets| && k < |c.calendar|
    ensures o in Candidates(c, open, k, n) <==>
      o.sym < n && !Holds(open, o.sym) && BarOf(c, o.sym, k, o.ei) && o.ei >= c.warm && c.strat.entry(o.sym, o.ei)
  {
    if n > 0 {
      CandidateIff(c, open, k, n - 1, o);
      HeldHolds(open, n - 1);
      NoBar(c, n - 1, k);
      if o.sym == n - 1 && BarOf(c, n - 1, k, o.ei) {
        BarIs(c, n - 1, k, o.ei);
      }
      hide BarAt, BarOf, Holds, Held;
    }
  }

  /** Tomorrow's entries: of the candidates the best-ranked, as many as eight leave room for once the queued exits are gone. */
  lemma ChosenAre(c: Setup, open: seq<Position>, exits: seq<nat>, k: nat)
    requires Usable(c) && k < |c.calendar|
    ensures var all, chosen, free := Candidates(c, open, k, |c.assets|), Chosen(c, open, exits, k), 8 - |open| + |exits|;
      && |chosen| == (if free <= 0 then 0 else if free <= |all| then free else |all|)
      && (forall o :: o in chosen ==> o in all)
      && (forall i, j :: 0 <= i < j < |chosen| ==> GoesBefore(c, chosen[i], chosen[j]))
      && (forall x, y :: x in chosen && y in all && y !in chosen ==> GoesBefore(c, x, y))
  {
    ChosenAreBest(c, open, exits, k);
    hide Candidates, Chosen;
  }

  /** The smaller rank, or the same and the earlier asset. */
  predicate GoesBefore(c: Setup, x: Order, y: Order) {
    var rx, ry := c.strat.rank(x.sym, x.ei), c.strat.rank(y.sym, y.ei);
    rx < ry || (rx == ry && x.sym < y.sym)
  }
}
