/**
 The mean-reversion paper replay: signals on a day's close are filled at the next
 day's open, at most MAX_POS positions, a fixed fraction of the starting value each.
 Exact reals; a price that is not finite is None.
 */
module MrReplay {
  import opened Basics
  import opened ReplayCalendar
  import Ranking

  const MAX_POS: nat := 8
  const NAV0: real := 100000.0

  /** The share of the starting value one position gets. */
  const SLICE: real := NAV0 / MAX_POS as real

  datatype Asset = Asset(dates: seq<int>, open: seq<Option<real>>, close: seq<real>)

  /** Entry and exit rules, and the rank by which entries queue, by asset and bar. */
  datatype Strategy = Strategy(entry: (nat, nat) -> bool, exit: (nat, nat, nat, real) -> bool, rank: (nat, nat) -> real)

  datatype Setup = Setup(assets: seq<Asset>, calendar: seq<int>, strat: Strategy, slip: real, fee: real, warm: nat)

  type Positive = x: real | x > 0.0 witness 1.0

  datatype Position = Position(sym: nat, fill: Positive, qty: Positive, ei: nat, entered: nat, close: real)

  datatype Trade = Trade(sym: nat, entered: nat, exited: nat, fill: Positive, exitFill: real, qty: Positive, ret: real, pnl: real)

  /** Cash, open positions in order of entry, closed trades. */
  datatype Book = Book(cash: real, open: seq<Position>, trades: seq<Trade>)

  datatype Order = Order(sym: nat, ei: nat)

  datatype Sim = Sim(book: Book, exits: seq<nat>, entries: seq<Order>, equity: seq<real>)

  // ── What the inputs must satisfy ────────────────────────────────────────

  predicate ShapesFit(assets: seq<Asset>) {
    forall a :: 0 <= a < |assets| ==> |assets[a].open| == |assets[a].close| == |assets[a].dates|
  }

  predicate Usable(c: Setup) {
    && ShapesFit(c.assets)
    && 0.0 <= c.slip <= 1.0 && 0.0 <= c.fee <= 1.0
  }

  /** Positive closes; an open may still be missing or not positive. */
  predicate ClosesPositive(c: Setup) {
    forall a, j :: 0 <= a < |c.assets| && 0 <= j < |c.assets[a].close| ==> c.assets[a].close[j] > 0.0
  }

  function BarAt(c: Setup, sym: nat, k: nat): (j: Option<nat>)
    requires ShapesFit(c.assets) && sym < |c.assets| && k < |c.calendar|
    ensures j.Some? ==> j.value < |c.assets[sym].dates| && c.assets[sym].dates[j.value] == c.calendar[k]
  {
    BarOn(c.assets[sym].dates, c.calendar[k])
  }

  /** Positions and orders refer to bars there are. */
  predicate Refers(c: Setup, sym: nat, ei: nat) {
    sym < |c.assets| && ei < |c.assets[sym].close|
  }

  predicate BookFits(c: Setup, b: Book) {
    forall i :: 0 <= i < |b.open| ==> Refers(c, b.open[i].sym, b.open[i].ei)
  }

  predicate OrdersFit(c: Setup, entries: seq<Order>) {
    forall i :: 0 <= i < |entries| ==> Refers(c, entries[i].sym, entries[i].ei)
  }

  // ── Money ───────────────────────────────────────────────────────────────

  function Times(x: real, y: real): real { x * y }

  lemma TimesPositive(x: real, y: real)
    requires x >= 0.0 && y >= 0.0
    ensures Times(x, y) >= 0.0 && (x > 0.0 && y > 0.0 ==> Times(x, y) > 0.0)
  {}

  /** What a position cost, entry fee included. */
  function Cost(p: Position, fee: real): real {
    Times(Times(p.qty, p.fill), 1.0 + fee)
  }

  function Held(open: seq<Position>, sym: nat): Option<nat> {
    if open == [] then None
    else if open[|open| - 1].sym == sym then Some(|open| - 1)
    else Held(open[..|open| - 1], sym)
  }

  lemma {:induction false} HeldIs(open: seq<Position>, sym: nat)
    ensures Held(open, sym).Some? ==> Held(open, sym).value < |open| && open[Held(open, sym).value].sym == sym
    ensures Held(open, sym).None? ==> forall i :: 0 <= i < |open| ==> open[i].sym != sym
  {
    if open != [] {
      HeldIs(open[..|open| - 1], sym);
    }
  }

  // ── Fills ───────────────────────────────────────────────────────────────

  function ExitPrice(c: Setup, p: Position, k: nat): real
    requires Usable(c) && Refers(c, p.sym, p.ei) && k < |c.calendar|
  {
    var a := c.assets[p.sym];
    var j := BarAt(c, p.sym, k);
    var op := if j.Some? then a.open[j.value] else Some(a.close[p.ei]);
    if op.Some? && op.value > 0.0 then op.value
    else if j.Some? then a.close[j.value]
    else p.fill
  }

  function SellPrice(c: Setup, p: Position, k: nat): real
    requires Usable(c) && Refers(c, p.sym, p.ei) && k < |c.calendar|
  {
    Times(ExitPrice(c, p, k), 1.0 - c.slip)
  }

  function Proceeds(c: Setup, p: Position, k: nat): real
    requires Usable(c) && Refers(c, p.sym, p.ei) && k < |c.calendar|
  {
    Times(Times(p.qty, SellPrice(c, p, k)), 1.0 - c.fee)
  }

  function Closed(c: Setup, p: Position, k: nat): Trade
    requires Usable(c) && Refers(c, p.sym, p.ei) && k < |c.calendar|
  {
    var cost := Cost(p, c.fee);
    TimesPositive(p.qty, p.fill);
    TimesPositive(Times(p.qty, p.fill), 1.0 + c.fee);
    Trade(p.sym, p.entered, k, p.fill, SellPrice(c, p, k), p.qty, Proceeds(c, p, k) / cost - 1.0, Proceeds(c, p, k) - cost)
  }

  function FillExit(c: Setup, b: Book, sym: nat, k: nat): (b': Book)
    requires Usable(c) && BookFits(c, b) && k < |c.calendar|
    ensures BookFits(c, b')
  {
    HeldIs(b.open, sym);
    match Held(b.open, sym)
    case None => b
    case Some(i) =>
      Book(b.cash + Proceeds(c, b.open[i], k), b.open[..i] + b.open[i + 1..], b.trades + [Closed(c, b.open[i], k)])
  }

  function FillExits(c: Setup, b: Book, exits: seq<nat>, k: nat): (b': Book)
    requires Usable(c) && BookFits(c, b) && k < |c.calendar|
    ensures BookFits(c, b')
  {
    if exits == [] then b else FillExit(c, FillExits(c, b, exits[..|exits| - 1], k), exits[|exits| - 1], k)
  }

  function FillEntry(c: Setup, b: Book, o: Order, k: nat): Book
    requires Usable(c) && Refers(c, o.sym, o.ei) && k < |c.calendar|
  {
    var j := BarAt(c, o.sym, k);
    if Held(b.open, o.sym).Some? || j.None? then b
    else
      var op := c.assets[o.sym].open[j.value];
      if op.None? || op.value <= 0.0 then b
      else
        var buy := Times(op.value, 1.0 + c.slip);
        var spend := if SLICE > b.cash then b.cash else SLICE;
        if spend < 1.0 then b
        else
          TimesPositive(op.value, 1.0 + c.slip);
          Bought(c, b, o, k, buy, spend)
  }

  function Bought(c: Setup, b: Book, o: Order, k: nat, buy: Positive, spend: Positive): Book
    requires Refers(c, o.sym, o.ei)
  {
    QtyPositive(spend, buy);
    var p := Position(o.sym, buy, spend / buy, o.ei, k, c.assets[o.sym].close[o.ei]);
    Book(b.cash - Cost(p, c.fee), b.open + [p], b.trades)
  }

  lemma QtyPositive(spend: Positive, buy: Positive)
    ensures spend / buy > 0.0 && Times(spend / buy, buy) == spend
  {}

  /** In queue order, until the cap is reached. */
  function FillEntries(c: Setup, b: Book, entries: seq<Order>, k: nat): (b': Book)
    requires Usable(c) && BookFits(c, b) && OrdersFit(c, entries) && k < |c.calendar|
    ensures BookFits(c, b')
    decreases |entries|
  {
    if entries == [] || |b.open| >= MAX_POS then b
    else FillEntries(c, FillEntry(c, b, entries[0], k), entries[1..], k)
  }

  // ── Marking and signals ─────────────────────────────────────────────────

  function Mark(c: Setup, p: Position, k: nat): real
    requires Usable(c) && Refers(c, p.sym, p.ei) && k < |c.calendar|
  {
    var j := BarAt(c, p.sym, k);
    var px := if j.Some? then c.assets[p.sym].close[j.value] else p.fill;
    if px > 0.0 then Times(p.qty, px) else 0.0
  }

  function Marked(c: Setup, open: seq<Position>, k: nat): real
    requires Usable(c) && k < |c.calendar| && forall i :: 0 <= i < |open| ==> Refers(c, open[i].sym, open[i].ei)
  {
    if open == [] then 0.0 else Marked(c, open[..|open| - 1], k) + Mark(c, open[|open| - 1], k)
  }

  predicate Leaves(c: Setup, p: Position, k: nat)
    requires Usable(c) && Refers(c, p.sym, p.ei) && k < |c.calendar|
  {
    var j := BarAt(c, p.sym, k);
    j.Some? && j.value >= c.warm && c.strat.exit(p.sym, j.value, p.ei, p.close)
  }

  function ExitSignals(c: Setup, open: seq<Position>, k: nat): seq<nat>
    requires Usable(c) && k < |c.calendar| && forall i :: 0 <= i < |open| ==> Refers(c, open[i].sym, open[i].ei)
  {
    if open == [] then []
    else
      var p := open[|open| - 1];
      ExitSignals(c, open[..|open| - 1], k) + (if Leaves(c, p, k) then [p.sym] else [])
  }

  predicate Enters(c: Setup, open: seq<Position>, sym: nat, k: nat)
    requires Usable(c) && sym < |c.assets| && k < |c.calendar|
  {
    var j := BarAt(c, sym, k);
    Held(open, sym).None? && j.Some? && j.value >= c.warm && c.strat.entry(sym, j.value)
  }

  /** The candidates among the first n assets. */
  function Candidates(c: Setup, open: seq<Position>, k: nat, n: nat): (os: seq<Order>)
    requires Usable(c) && n <= |c.assets| && k < |c.calendar|
    ensures OrdersFit(c, os)
  {
    if n == 0 then []
    else Candidates(c, open, k, n - 1) + (if Enters(c, open, n - 1, k) then [Order(n - 1, BarAt(c, n - 1, k).value)] else [])
  }

  function RankOf(c: Setup, o: Order): real {
    c.strat.rank(o.sym, o.ei)
  }

  /** Most oversold first. */
  function RankKey(c: Setup): Order -> real {
    o => RankOf(c, o)
  }

  function SymOf(o: Order): int {
    o.sym
  }

  function FreeSlots(open: seq<Position>, exits: seq<nat>): int {
    MAX_POS - (|open| - |exits|)
  }

  function Chosen(c: Setup, open: seq<Position>, exits: seq<nat>, k: nat): seq<Order>
    requires Usable(c) && k < |c.calendar|
  {
    Ranking.Best(RankKey(c), Candidates(c, open, k, |c.assets|), FreeSlots(open, exits))
  }

  /** The candidates come in the order of the assets. */
  lemma {:induction false} CandidatesPlaced(c: Setup, open: seq<Position>, k: nat, n: nat)
    requires Usable(c) && n <= |c.assets| && k < |c.calendar|
    ensures forall o :: o in Candidates(c, open, k, n) ==> o.sym < n
    ensures Ranking.Placed(SymOf, Candidates(c, open, k, n))
  {
    if n > 0 {
      CandidatesPlaced(c, open, k, n - 1);
    }
  }

  /** Before the other in the queue: the smaller rank, or the same and the earlier asset. */
  predicate Precedes(c: Setup, x: Order, y: Order) {
    RankOf(c, x) < RankOf(c, y) || (RankOf(c, x) == RankOf(c, y) && x.sym < y.sym)
  }

  /**
   Tomorrow's entries: as many as fit the free slots, in rank order, and each of them
   goes before every candidate left out.
   */
  lemma ChosenAreBest(c: Setup, open: seq<Position>, exits: seq<nat>, k: nat)
    requires Usable(c) && k < |c.calendar|
    ensures var all, chosen := Candidates(c, open, k, |c.assets|), Chosen(c, open, exits, k);
      && |chosen| == Ranking.Taken(FreeSlots(open, exits), |all|)
      && (forall i, j :: 0 <= i < j < |chosen| ==> Precedes(c, chosen[i], chosen[j]))
      && (forall o :: o in chosen ==> o in all)
      && (forall x, y :: x in chosen && y in all && y !in chosen ==> Precedes(c, x, y))
  {
    var all, chosen := Candidates(c, open, k, |c.assets|), Chosen(c, open, exits, k);
    CandidatesPlaced(c, open, k, |c.assets|);
    Ranking.BestAre(RankKey(c), SymOf, all, FreeSlots(open, exits));
    assert forall x, y :: Ranking.Precedes(RankKey(c), SymOf, x, y) ==> Precedes(c, x, y);
    hide Ranking.Precedes, Precedes, Candidates, Chosen;
  }

  lemma ChosenFit(c: Setup, open: seq<Position>, exits: seq<nat>, k: nat)
    requires Usable(c) && k < |c.calendar|
    ensures OrdersFit(c, Chosen(c, open, exits, k))
  {
    ChosenAreBest(c, open, exits, k);
    var all, chosen := Candidates(c, open, k, |c.assets|), Chosen(c, open, exits, k);
    assert forall i :: 0 <= i < |chosen| ==> chosen[i] in all;
    assert forall o :: o in all ==> Refers(c, o.sym, o.ei);
  }

  // ── A day, and all days ─────────────────────────────────────────────────

  predicate SimFits(c: Setup, s: Sim) {
    BookFits(c, s.book) && OrdersFit(c, s.entries)
  }

  function Day(c: Setup, s: Sim, k: nat): (s': Sim)
    requires Usable(c) && SimFits(c, s) && k < |c.calendar|
    ensures SimFits(c, s')
  {
    var b := FillEntries(c, FillExits(c, s.book, s.exits, k), s.entries, k);
    var exits := ExitSignals(c, b.open, k);
    ChosenFit(c, b.open, exits, k);
    Sim(b, exits, Chosen(c, b.open, exits, k), s.equity + [b.cash + Marked(c, b.open, k)])
  }

  const START := Sim(Book(NAV0, [], []), [], [], [])

  function After(c: Setup, n: nat): (s: Sim)
    requires Usable(c) && n <= |c.calendar|
    ensures SimFits(c, s)
  {
    if n == 0 then START else Day(c, After(c, n - 1), n - 1)
  }
}
