/**
 The compounding trend replay: per asset the indicators of each bar, and a day loop
 over cash, open positions and pending lists with fees, slippage, volatility
 targeting, a drawdown guard, an exposure cap and forced closes. Exact reals; an
 indicator without enough bars, and an open that is not finite, is None.
 */
module DrReplay {
  import opened Basics
  import opened ReplayCalendar
  import Ranking

  const FEE_SIDE: real := 0.001
  const SLIP: real := 0.0005
  const MAX_POS: nat := 8
  const NAV0: real := 1000.0
  const DONCH: nat := 20
  const ATRL: nat := 22
  const CH: real := 3.0
  const WARM: nat := 210
  const TARGET_VOL: real := 0.05
  const GAP: nat := 45

  datatype Bar = Bar(date: int, open: Option<real>, high: real, low: real, close: real)

  type Positive = x: real | x > 0.0 witness 1.0

  function Times(x: real, y: real): real { x * y }

  function Max(x: real, y: real): real { if x < y then y else x }

  function Min(x: real, y: real): real { if y < x then y else x }

  function Abs(x: real): real { if x < 0.0 then 0.0 - x else x }

  // ── Indicators ──────────────────────────────────────────────────────────

  function TrueRange(bars: seq<Bar>, j: nat): real
    requires j < |bars|
  {
    var pc := bars[if j == 0 then 0 else j - 1].close;
    Max(bars[j].high - bars[j].low, Max(Abs(bars[j].high - pc), Abs(bars[j].low - pc)))
  }

  /** The exponential mean of the true range with weight 1/p, started on the first bar. */
  function Atr(bars: seq<Bar>, j: nat, p: nat): real
    requires j < |bars| && p > 0
  {
    var alpha := 1.0 / p as real;
    if j == 0 then TrueRange(bars, 0)
    else Times(1.0 - alpha, Atr(bars, j - 1, p)) + Times(alpha, TrueRange(bars, j))
  }

  /** The highest high of bars from to j. */
  function Highest(bars: seq<Bar>, from: nat, j: nat): real
    requires from <= j < |bars|
    decreases j - from
  {
    if from == j then bars[j].high else Max(Highest(bars, from, j - 1), bars[j].high)
  }

  function CloseSum(bars: seq<Bar>, from: nat, j: nat): real
    requires from <= j < |bars|
    decreases j - from
  {
    if from == j then bars[j].close else CloseSum(bars, from, j - 1) + bars[j].close
  }

  /** The high of the 20 bars before this one. */
  function Donchian(bars: seq<Bar>, j: nat): Option<real>
    requires j < |bars|
  {
    if j < DONCH then None else Some(Highest(bars, j - DONCH, j - 1))
  }

  function Sma200(bars: seq<Bar>, j: nat): Option<real>
    requires j < |bars|
  {
    if j < 199 then None else Some(CloseSum(bars, j - 199, j) / 200.0)
  }

  /** The chandelier stop: three average ranges under the high of 22 bars. */
  function Chandelier(bars: seq<Bar>, j: nat): Option<real>
    requires j < |bars|
  {
    if j < ATRL - 1 then None else Some(Highest(bars, j - (ATRL - 1), j) - CH * Atr(bars, j, ATRL))
  }

  function AtrShare(bars: seq<Bar>, j: nat): real
    requires j < |bars|
  {
    if bars[j].close > 0.0 then Atr(bars, j, 14) / bars[j].close else 0.05
  }

  // ── What the engine sees of a day ───────────────────────────────────────

  datatype Quote = Quote(
    j: nat,
    open: Option<real>,
    close: real,
    donch: Option<real>,
    sma200: Option<real>,
    chand: Option<real>,
    atrpct: real
  )

  function DatesOf(bars: seq<Bar>): (dates: seq<int>)
    ensures |dates| == |bars| && forall j :: 0 <= j < |bars| ==> dates[j] == bars[j].date
  {
    seq(|bars|, j requires 0 <= j < |bars| => bars[j].date)
  }

  function AllDates(assets: seq<seq<Bar>>): (all: seq<seq<int>>)
    ensures |all| == |assets| && forall a :: 0 <= a < |assets| ==> all[a] == DatesOf(assets[a])
  {
    seq(|assets|, a requires 0 <= a < |assets| => DatesOf(assets[a]))
  }

  function Days(assets: seq<seq<Bar>>): seq<int> {
    Calendar(AllDates(assets))
  }

  /** The asset's bar on a date with its indicators, if it has one. */
  function QuoteOn(bars: seq<Bar>, date: int): Option<Quote> {
    match BarOn(DatesOf(bars), date)
    case None => None
    case Some(j) =>
      Some(Quote(j, bars[j].open, bars[j].close, Donchian(bars, j), Sma200(bars, j), Chandelier(bars, j), AtrShare(bars, j)))
  }

  type View = seq<Option<Quote>>

  function ViewOn(assets: seq<seq<Bar>>, date: int): (v: View)
    ensures |v| == |assets| && forall a :: 0 <= a < |assets| ==> v[a] == QuoteOn(assets[a], date)
  {
    seq(|assets|, a requires 0 <= a < |assets| => QuoteOn(assets[a], date))
  }

  // ── The book ────────────────────────────────────────────────────────────

  /** e: entry fill; k: entry day; sz: amount spent; seen, lastpx: the last day with a bar and its close. */
  datatype Position = Position(sym: nat, e: Positive, qty: Positive, k: nat, sz: Positive, seen: nat, lastpx: real)

  /** profit is exact; pnl is what the log shows, rounded to cents. */
  datatype Trade = Trade(sym: nat, entered: nat, exited: nat, entry: Positive, exit: real, size: Positive, qty: Positive, profit: real, pnl: real)

  datatype Book = Book(cash: real, op: seq<Position>, trades: seq<Trade>)

  datatype Params = Params(perFrac: real, expoCap: real, volTarget: bool, ddGuard: Option<real>)

  datatype Sim = Sim(book: Book, pe: seq<nat>, pen: seq<nat>, peak: Positive, eq: seq<real>)

  predicate Known(v: View, op: seq<Position>) {
    forall i :: 0 <= i < |op| ==> op[i].sym < |v|
  }

  predicate AllKnown(v: View, syms: seq<nat>) {
    forall i :: 0 <= i < |syms| ==> syms[i] < |v|
  }

  function Held(op: seq<Position>, sym: nat): (i: Option<nat>)
    ensures i.Some? ==> i.value < |op| && op[i.value].sym == sym
    ensures i.None? ==> forall j :: 0 <= j < |op| ==> op[j].sym != sym
  {
    if op == [] then None
    else if op[|op| - 1].sym == sym then Some(|op| - 1)
    else Held(op[..|op| - 1], sym)
  }

  // ── Rounding ────────────────────────────────────────────────────────────

  /** The nearest integer, ties to even. */
  function Nearest(x: real): int {
    var f := x.Floor;
    var d := x - f as real;
    if d < 0.5 || (d == 0.5 && f % 2 == 0) then f else f + 1
  }

  function Round2(x: real): real {
    Nearest(x * 100.0) as real / 100.0
  }

  // ── Closing a position ──────────────────────────────────────────────────

  function Cost(p: Position): real {
    Times(Times(p.qty, p.e), 1.0 + FEE_SIDE)
  }

  function Proceeds(p: Position, price: real): real {
    Times(Times(p.qty, Times(price, 1.0 - SLIP)), 1.0 - FEE_SIDE)
  }

  function Closed(p: Position, price: real, k: nat): Trade {
    var profit := Proceeds(p, price) - Cost(p);
    Trade(p.sym, p.k, k, p.e, Times(price, 1.0 - SLIP), p.sz, p.qty, profit, Round2(profit))
  }

  // ── Morning: exits, then entries at the open ────────────────────────────

  function OpenOr(v: View, p: Position): real
    requires p.sym < |v|
  {
    if v[p.sym].Some? && v[p.sym].value.open.Some? && v[p.sym].value.open.value > 0.0 then v[p.sym].value.open.value else p.e
  }

  function CloseOr(v: View, p: Position): real
    requires p.sym < |v|
  {
    if v[p.sym].Some? then v[p.sym].value.close else p.e
  }

  function FillExit(v: View, b: Book, sym: nat, k: nat): (b': Book)
    requires Known(v, b.op)
    ensures Known(v, b'.op)
  {
    match Held(b.op, sym)
    case None => b
    case Some(i) =>
      var price := OpenOr(v, b.op[i]);
      Book(b.cash + Proceeds(b.op[i], price), b.op[..i] + b.op[i + 1..], b.trades + [Closed(b.op[i], price, k)])
  }

  function FillExits(v: View, b: Book, pe: seq<nat>, k: nat): (b': Book)
    requires Known(v, b.op)
    ensures Known(v, b'.op)
  {
    if pe == [] then b else FillExit(v, FillExits(v, b, pe[..|pe| - 1], k), pe[|pe| - 1], k)
  }

  function Mark(v: View, p: Position): real
    requires p.sym < |v|
  {
    if CloseOr(v, p) > 0.0 then Times(p.qty, CloseOr(v, p)) else 0.0
  }

  function Marked(v: View, op: seq<Position>): real
    requires Known(v, op)
  {
    if op == [] then 0.0 else Marked(v, op[..|op| - 1]) + Mark(v, op[|op| - 1])
  }

  function EquityNow(v: View, b: Book): real
    requires Known(v, b.op)
  {
    b.cash + Marked(v, b.op)
  }

  /** Half size while the drawdown from the peak is deeper than the guard. */
  function RiskMult(c: Params, equity: real, peak: Positive): real {
    if c.ddGuard.Some? && equity / peak - 1.0 < 0.0 - c.ddGuard.value then 0.5 else 1.0
  }

  function VolScale(q: Quote): real {
    var apct := if q.atrpct > 0.0 then q.atrpct else 0.05;
    Min(1.5, Max(0.3, TARGET_VOL / apct))
  }

  /** A book while entries are filled, with the amount deployed so far. */
  datatype Filling = Filling(book: Book, deployed: real)

  function Spend(c: Params, q: Quote, equity: real, riskMult: real, f: Filling): real {
    var base := Times(Times(c.perFrac, equity), riskMult);
    var scaled := if c.volTarget then Times(base, VolScale(q)) else base;
    Min(scaled, Min(Times(c.expoCap, equity) - f.deployed, f.book.cash))
  }

  lemma BuyPositive(o: Positive)
    ensures Times(o, 1.0 + SLIP) > 0.0
  {}

  lemma QtyPositive(sp: Positive, buy: Positive)
    ensures sp / buy > 0.0
  {}

  function FillEntry(c: Params, v: View, f: Filling, sym: nat, equity: real, riskMult: real, k: nat): (f': Filling)
    requires Known(v, f.book.op) && sym < |v|
    ensures Known(v, f'.book.op)
  {
    if Held(f.book.op, sym).Some? || v[sym].None? then f
    else
      var q := v[sym].value;
      if q.open.None? || q.open.value <= 0.0 then f
      else
        var sp := Spend(c, q, equity, riskMult, f);
        if sp < 0.01 then f
        else
          BuyPositive(q.open.value);
          var buy := Times(q.open.value, 1.0 + SLIP);
          QtyPositive(sp, buy);
          var p := Position(sym, buy, sp / buy, k, sp, k, buy);
          Filling(Book(f.book.cash - Cost(p), f.book.op + [p], f.book.trades), f.deployed + sp)
  }

  function FillEntries(c: Params, v: View, f: Filling, pen: seq<nat>, equity: real, riskMult: real, k: nat): (f': Filling)
    requires Known(v, f.book.op) && AllKnown(v, pen)
    ensures Known(v, f'.book.op)
    decreases |pen|
  {
    if pen == [] || |f.book.op| >= MAX_POS then f
    else FillEntries(c, v, FillEntry(c, v, f, pen[0], equity, riskMult, k), pen[1..], equity, riskMult, k)
  }

  // ── Evening: forced closes, exit and entry signals ──────────────────────

  function Seen(v: View, p: Position, k: nat): (p': Position)
    requires p.sym < |v|
    ensures p'.sym == p.sym
  {
    if v[p.sym].Some? then p.(seen := k, lastpx := v[p.sym].value.close) else p
  }

  /** No bar for more than GAP days. */
  predicate Gone(p: Position, k: nat) {
    k - p.seen > GAP
  }

  predicate Leaves(v: View, p: Position)
    requires p.sym < |v|
  {
    && v[p.sym].Some? && v[p.sym].value.j >= WARM
    && var q := v[p.sym].value;
    (q.chand.Some? && q.close < q.chand.value) || (q.sma200.Some? && q.close < q.sma200.value)
  }

  /** The first n positions gone over: who stays, what was closed, who is to leave tomorrow. */
  datatype Evening = Evening(book: Book, pe: seq<nat>)

  function GoOverOne(v: View, e: Evening, p: Position, k: nat): (e': Evening)
    requires Known(v, e.book.op) && p.sym < |v|
    ensures Known(v, e'.book.op)
  {
    if Gone(p, k) then
      Evening(Book(e.book.cash + Proceeds(p, p.lastpx), e.book.op, e.book.trades + [Closed(p, p.lastpx, k)]), e.pe)
    else
      Evening(Book(e.book.cash, e.book.op + [p], e.book.trades),
              if Leaves(v, p) && p.sym !in e.pe then e.pe + [p.sym] else e.pe)
  }

  function GoOver(v: View, b: Book, n: nat, k: nat): (e: Evening)
    requires Known(v, b.op) && n <= |b.op|
    ensures Known(v, e.book.op)
  {
    if n == 0 then Evening(Book(b.cash, [], b.trades), []) else GoOverOne(v, GoOver(v, b, n - 1, k), Seen(v, b.op[n - 1], k), k)
  }

  predicate Enters(v: View, op: seq<Position>, sym: nat)
    requires sym < |v|
  {
    && Held(op, sym).None? && v[sym].Some? && v[sym].value.j >= WARM
    && var q := v[sym].value;
    q.donch.Some? && q.close > q.donch.value && !(q.sma200.Some? && q.close <= q.sma200.value)
  }

  /** A candidate and the strength of its breakout. */
  datatype Cand = Cand(sym: nat, strength: real)

  function Candidates(v: View, op: seq<Position>, n: nat): (cs: seq<Cand>)
    requires n <= |v|
    ensures forall i :: 0 <= i < |cs| ==> cs[i].sym < n
  {
    if n == 0 then []
    else
      Candidates(v, op, n - 1)
      + (if Enters(v, op, n - 1) then [Cand(n - 1, v[n - 1].value.close - v[n - 1].value.donch.value)] else [])
  }

  /** Strongest first. */
  function RankKey(x: Cand): real {
    0.0 - x.strength
  }

  function SymOf(x: Cand): int {
    x.sym
  }

  function Syms(cs: seq<Cand>): (syms: seq<nat>)
    ensures |syms| == |cs| && forall i :: 0 <= i < |cs| ==> syms[i] == cs[i].sym
  {
    seq(|cs|, i requires 0 <= i < |cs| => cs[i].sym)
  }

  function FreeSlots(op: seq<Position>, pe: seq<nat>): int {
    MAX_POS - (|op| - |pe|)
  }

  /** The breakouts bought tomorrow. */
  function Best(v: View, op: seq<Position>, pe: seq<nat>): seq<Cand> {
    Ranking.Best(RankKey, Candidates(v, op, |v|), FreeSlots(op, pe))
  }

  lemma {:induction false} CandidatesPlaced(v: View, op: seq<Position>, n: nat)
    requires n <= |v|
    ensures Ranking.Placed(SymOf, Candidates(v, op, n))
  {
    if n > 0 {
      CandidatesPlaced(v, op, n - 1);
    }
  }

  /** Before the other in the queue: the stronger breakout, or as strong and of the earlier asset. */
  predicate Precedes(x: Cand, y: Cand) {
    x.strength > y.strength || (x.strength == y.strength && x.sym < y.sym)
  }

  /**
   Tomorrow's entries: as many as fit the free slots, strongest first, and each of them
   goes before every candidate left out.
   */
  lemma BestAreStrongest(v: View, op: seq<Position>, pe: seq<nat>)
    ensures var all, best := Candidates(v, op, |v|), Best(v, op, pe);
      && |best| == Ranking.Taken(FreeSlots(op, pe), |all|)
      && (forall i, j :: 0 <= i < j < |best| ==> Precedes(best[i], best[j]))
      && (forall x :: x in best ==> x in all)
      && (forall x, y :: x in best && y in all && y !in best ==> Precedes(x, y))
  {
    var all, best := Candidates(v, op, |v|), Best(v, op, pe);
    CandidatesPlaced(v, op, |v|);
    Ranking.BestAre(RankKey, SymOf, all, FreeSlots(op, pe));
    assert forall x, y :: Ranking.Precedes(RankKey, SymOf, x, y) ==> Precedes(x, y);
    hide Ranking.Precedes, Precedes, Candidates, Best;
  }

  function Chosen(v: View, op: seq<Position>, pe: seq<nat>): (pen: seq<nat>)
    ensures AllKnown(v, pen)
  {
    BestAreStrongest(v, op, pe);
    var best := Best(v, op, pe);
    assert forall i :: 0 <= i < |best| ==> best[i] in Candidates(v, op, |v|);
    Syms(best)
  }

  // ── Days ────────────────────────────────────────────────────────────────

  predicate Fits(v: View, s: Sim) {
    Known(v, s.book.op) && AllKnown(v, s.pen)
  }

  function PeakNow(v: View, peak: Positive, b: Book): Positive
    requires Known(v, b.op)
  {
    Max(peak, EquityNow(v, b))
  }

  /** The book after the pending entries were filled. */
  function Entered(c: Params, v: View, b: Book, pen: seq<nat>, peak: Positive, k: nat): (b': Book)
    requires Known(v, b.op) && AllKnown(v, pen)
    ensures Known(v, b'.op)
  {
    var equity := EquityNow(v, b);
    var riskMult := RiskMult(c, equity, PeakNow(v, peak, b));
    FillEntries(c, v, Filling(b, equity - b.cash), pen, equity, riskMult, k).book
  }

  function Day(c: Params, v: View, s: Sim, k: nat): (s': Sim)
    requires Fits(v, s)
    ensures Fits(v, s')
  {
    var b := FillExits(v, s.book, s.pe, k);
    var f := Entered(c, v, b, s.pen, s.peak, k);
    var e := GoOver(v, f, |f.op|, k);
    Sim(e.book, e.pe, Chosen(v, e.book.op, e.pe), PeakNow(v, s.peak, b), s.eq + [EquityNow(v, f)])
  }

  const START := Sim(Book(NAV0, [], []), [], [], NAV0, [])

  predicate FitsAll(n: nat, s: Sim) {
    (forall i :: 0 <= i < |s.book.op| ==> s.book.op[i].sym < n) && (forall i :: 0 <= i < |s.pen| ==> s.pen[i] < n)
  }

  /** After n days of the assets' calendar. */
  function After(c: Params, assets: seq<seq<Bar>>, n: nat): (s: Sim)
    requires n <= |Days(assets)|
    ensures FitsAll(|assets|, s)
  {
    if n == 0 then START else Day(c, ViewOn(assets, Days(assets)[n - 1]), After(c, assets, n - 1), n - 1)
  }

  /** End of data: the first n open positions closed at the last close. */
  function Liquidated(v: View, b: Book, n: nat, k: nat): Book
    requires Known(v, b.op) && n <= |b.op|
  {
    if n == 0 then Book(b.cash, [], b.trades)
    else
      var rest := Liquidated(v, b, n - 1, k);
      var p := b.op[n - 1];
      Book(rest.cash + Proceeds(p, CloseOr(v, p)), [], rest.trades + [Closed(p, CloseOr(v, p), k)])
  }

  /** The book after all days and the final liquidation. */
  function Final(c: Params, assets: seq<seq<Bar>>): Book
    requires Days(assets) != []
  {
    var days := Days(assets);
    var s := After(c, assets, |days|);
    Liquidated(ViewOn(assets, days[|days| - 1]), s.book, |s.book.op|, |days| - 1)
  }
}
