/**
 What the trend replay's indicators and signals are, read off the bars: the true range,
 its exponential mean, the highs and means of windows; which positions are told to
 leave, which are closed for want of bars, and which assets are candidates.
 */
module DrSignals {
  import opened Basics
  import opened ReplayCalendar
  import opened DrReplay
  import opened DrCausality

  // ── Indicators ──────────────────────────────────────────────────────────

  /** The close before a bar; the first bar stands in for itself. */
  function CloseBefore(bars: seq<Bar>, j: nat): real
    requires j < |bars|
  {
    if j == 0 then bars[0].close else bars[j - 1].close
  }

  /** The true range is the largest distance between the high, the low and the close before. */
  lemma TrueRangeIs(bars: seq<Bar>, j: nat)
    requires j < |bars|
    ensures var r, h, l, c := TrueRange(bars, j), bars[j].high, bars[j].low, CloseBefore(bars, j);
      && r >= h - l && r >= h - c && r >= c - h && r >= l - c && r >= c - l
      && (r == h - l || r == h - c || r == c - h || r == l - c || r == c - l)
  {}

  /** The average range starts with the first true range; later, one p-th is new and the rest is old. */
  lemma AtrIs(bars: seq<Bar>, j: nat, p: nat)
    requires j < |bars| && p > 0
    ensures Atr(bars, 0, p) == TrueRange(bars, 0)
    ensures j > 0 ==> p as real * Atr(bars, j, p) == (p - 1) as real * Atr(bars, j - 1, p) + TrueRange(bars, j)
  {
    hide TrueRange;
    if j > 0 {
      Weighted(p as real, Atr(bars, j - 1, p), TrueRange(bars, j));
    }
  }

  lemma Weighted(p: real, was: real, now: real)
    requires p > 0.0
    ensures p * (Times(1.0 - 1.0 / p, was) + Times(1.0 / p, now)) == (p - 1.0) * was + now
  {
    assert p * (1.0 / p) == 1.0;
    assert p * ((1.0 - 1.0 / p) * was) == (p - p * (1.0 / p)) * was;
    assert p * (1.0 / p * now) == p * (1.0 / p) * now;
  }

  /** The highest high of a window is one of its highs and not below any. */
  lemma {:induction false} HighestIs(bars: seq<Bar>, from: nat, j: nat)
    requires from <= j < |bars|
    ensures forall i :: from <= i <= j ==> bars[i].high <= Highest(bars, from, j)
    ensures exists i :: from <= i <= j && bars[i].high == Highest(bars, from, j)
    decreases j - from
  {
    if from < j {
      HighestIs(bars, from, j - 1);
    } else {
      assert bars[j].high == Highest(bars, from, j);
    }
  }

  /** The sum of a window's closes, told from its first bar on. */
  lemma {:induction false} CloseSumIs(bars: seq<Bar>, from: nat, j: nat)
    requires from <= j < |bars|
    ensures CloseSum(bars, j, j) == bars[j].close
    ensures from < j ==> CloseSum(bars, from, j) == bars[from].close + CloseSum(bars, from + 1, j)
    decreases j - from
  {
    if from + 1 < j {
      CloseSumIs(bars, from, j - 1);
    }
  }

  /** The average range of 14 bars as a share of the close; one twentieth where the close is not positive. */
  lemma AtrShareIs(bars: seq<Bar>, j: nat)
    requires j < |bars|
    ensures bars[j].close > 0.0 ==> AtrShare(bars, j) * bars[j].close == Atr(bars, j, 14)
    ensures bars[j].close <= 0.0 ==> AtrShare(bars, j) == 0.05
  {
    hide Atr;
  }

  // ── What a bar says ─────────────────────────────────────────────────────

  /** Under the chandelier stop of 22 bars or under the mean of 200 closes, with 210 bars before. */
  predicate StopHit(bars: seq<Bar>, j: nat)
    requires j < |bars|
  {
    && j >= 210
    && (bars[j].close < Highest(bars, j - 21, j) - 3.0 * Atr(bars, j, 22)
        || 200.0 * bars[j].close < CloseSum(bars, j - 199, j))
  }

  /** Above the high of the 20 bars before and above the mean of 200 closes, with 210 bars before. */
  predicate BreaksOut(bars: seq<Bar>, j: nat)
    requires j < |bars|
  {
    && j >= 210
    && bars[j].close > Highest(bars, j - 20, j - 1)
    && 200.0 * bars[j].close > CloseSum(bars, j - 199, j)
  }

  /** The asset's bar on a date. */
  predicate BarOf(assets: seq<seq<Bar>>, sym: nat, date: int, j: int) {
    sym < |assets| && 0 <= j < |assets[sym]| && assets[sym][j].date == date
  }

  ghost predicate AllSorted(assets: seq<seq<Bar>>) {
    forall a :: 0 <= a < |assets| ==> Sorted(assets[a])
  }

  /** The view of a date shows an asset's bar exactly if it has one, with what its indicators say. */
  lemma QuoteIs(assets: seq<seq<Bar>>, sym: nat, date: int, j: int)
    requires AllSorted(assets) && BarOf(assets, sym, date, j)
    ensures var v, bars := ViewOn(assets, date), assets[sym];
      && v[sym].Some? && v[sym].value.j == j && v[sym].value.open == bars[j].open && v[sym].value.close == bars[j].close
      && v[sym].value.donch == Donchian(bars, j) && v[sym].value.sma200 == Sma200(bars, j)
      && v[sym].value.chand == Chandelier(bars, j) && v[sym].value.atrpct == AtrShare(bars, j)
  {
    BarOnIs(DatesOf(assets[sym]), date, j);
    hide Donchian, Sma200, Chandelier, AtrShare, BarOn;
  }

  lemma NoQuote(assets: seq<seq<Bar>>, sym: nat, date: int)
    requires sym < |assets|
    ensures ViewOn(assets, date)[sym].None? <==> forall j :: !BarOf(assets, sym, date, j)
    ensures ViewOn(assets, date)[sym].Some? ==> BarOf(assets, sym, date, ViewOn(assets, date)[sym].value.j)
  {
    var dates := DatesOf(assets[sym]);
    hide Donchian, Sma200, Chandelier, AtrShare;
    if BarOn(dates, date).None? {
      forall j
        ensures !BarOf(assets, sym, date, j)
      {
        assert 0 <= j < |dates| ==> dates[j] in dates;
      }
    } else {
      assert BarOf(assets, sym, date, BarOn(dates, date).value);
    }
  }

  lemma MeanBelow(sum: real, close: real)
    ensures close < sum / 200.0 <==> 200.0 * close < sum
    ensures close > sum / 200.0 <==> 200.0 * close > sum
  {}

  /** The asset has a bar today that hits the stop. */
  ghost predicate ToldToLeave(assets: seq<seq<Bar>>, sym: nat, date: int) {
    exists j :: BarOf(assets, sym, date, j) && StopHit(assets[sym], j)
  }

  lemma LeavesIff(assets: seq<seq<Bar>>, date: int, p: Position)
    requires AllSorted(assets) && p.sym < |assets|
    ensures Leaves(ViewOn(assets, date), p) <==> ToldToLeave(assets, p.sym, date)
  {
    var v := ViewOn(assets, date);
    NoQuote(assets, p.sym, date);
    hide ViewOn;
    forall j | BarOf(assets, p.sym, date, j)
      ensures Leaves(v, p) <==> StopHit(assets[p.sym], j)
    {
      QuoteIs(assets, p.sym, date, j);
      if j >= 210 {
        MeanBelow(CloseSum(assets[p.sym], j - 199, j), assets[p.sym][j].close);
      }
      hide Highest, CloseSum, Atr, AtrShare;
    }
  }

  lemma EntersIff(assets: seq<seq<Bar>>, date: int, op: seq<Position>, sym: nat)
    requires AllSorted(assets) && sym < |assets|
    ensures Enters(ViewOn(assets, date), op, sym) <==>
      Held(op, sym).None? && exists j :: BarOf(assets, sym, date, j) && BreaksOut(assets[sym], j)
    ensures forall j :: BarOf(assets, sym, date, j) && j >= 210 ==>
      ViewOn(assets, date)[sym].Some? && ViewOn(assets, date)[sym].value.donch == Some(Highest(assets[sym], j - 20, j - 1))
      && ViewOn(assets, date)[sym].value.close == assets[sym][j].close
  {
    var v := ViewOn(assets, date);
    NoQuote(assets, sym, date);
    hide ViewOn, Held;
    forall j | BarOf(assets, sym, date, j)
      ensures Enters(v, op, sym) <==> Held(op, sym).None? && BreaksOut(assets[sym], j)
      ensures v[sym].Some? && v[sym].value.close == assets[sym][j].close
      ensures j >= 210 ==> v[sym].value.donch == Some(Highest(assets[sym], j - 20, j - 1))
    {
      QuoteIs(assets, sym, date, j);
      if j >= 210 {
        MeanBelow(CloseSum(assets[sym], j - 199, j), assets[sym][j].close);
      }
      hide Highest, CloseSum, Chandelier, AtrShare;
    }
  }

  // ── The evening over all positions ──────────────────────────────────────

  /** A position at the end of a day: its last close updated if it has a bar. */
  ghost predicate Updated(assets: seq<seq<Bar>>, date: int, k: nat, p: Position, q: Position) {
    && (forall j :: BarOf(assets, p.sym, date, j) ==> q == p.(seen := k, lastpx := assets[p.sym][j].close))
    && ((forall j :: !BarOf(assets, p.sym, date, j)) ==> q == p)
  }

  /** No bar today and none for more than 45 days. */
  ghost predicate Delisted(assets: seq<seq<Bar>>, date: int, k: nat, p: Position) {
    (forall j :: !BarOf(assets, p.sym, date, j)) && k - p.seen > 45
  }

  /** The trade that closes a delisted position at its last close, slippage off, fees on both sides. */
  ghost predicate ClosedAtLast(t: Trade, p: Position, k: nat) {
    && t.sym == p.sym && t.entered == p.k && t.exited == k && t.entry == p.e && t.size == p.sz && t.qty == p.qty
    && t.exit == p.lastpx * 0.9995
    && t.profit == p.qty * t.exit * 0.999 - p.qty * p.e * 1.001 && t.pnl == Round2(t.profit)
  }

  lemma SeenIs(assets: seq<seq<Bar>>, date: int, k: nat, p: Position)
    requires AllSorted(assets) && p.sym < |assets|
    ensures Updated(assets, date, k, p, Seen(ViewOn(assets, date), p, k))
    ensures p.seen <= k ==> (Gone(Seen(ViewOn(assets, date), p, k), k) <==> Delisted(assets, date, k, p))
    ensures Gone(Seen(ViewOn(assets, date), p, k), k) ==> Seen(ViewOn(assets, date), p, k) == p
  {
    NoQuote(assets, p.sym, date);
    forall j | BarOf(assets, p.sym, date, j)
      ensures ViewOn(assets, date)[p.sym].Some? && ViewOn(assets, date)[p.sym].value.close == assets[p.sym][j].close
    {
      QuoteIs(assets, p.sym, date, j);
    }
    hide ViewOn;
  }

  lemma LastCloseIs(p: Position, k: nat)
    ensures ClosedAtLast(Closed(p, p.lastpx, k), p, k)
    ensures Proceeds(p, p.lastpx) == p.qty * (p.lastpx * 0.9995) * 0.999
  {
    hide Round2;
  }

  /** What one position adds to the evening. */
  lemma GoOverOneIs(v: View, e: Evening, p: Position, k: nat)
    requires Known(v, e.book.op) && p.sym < |v|
    ensures var e' := GoOverOne(v, e, p, k);
      if Gone(p, k) then
        e'.book.op == e.book.op && e'.book.trades == e.book.trades + [Closed(p, p.lastpx, k)] && e'.pe == e.pe
        && e'.book.cash == e.book.cash + Proceeds(p, p.lastpx)
      else
        e'.book.op == e.book.op + [p] && e'.book.trades == e.book.trades && e'.book.cash == e.book.cash
        && (forall s :: s in e'.pe <==> s in e.pe || (s == p.sym && Leaves(v, p)))
  {
    hide Leaves;
  }

  lemma TodayMeansNotGone(assets: seq<seq<Bar>>, date: int, k: nat, p: Position)
    ensures ToldToLeave(assets, p.sym, date) ==> !Delisted(assets, date, k, p)
  {
    hide BarOf, StopHit;
  }

  /** Told to leave are exactly the held assets whose bar today hits the stop. */
  lemma {:induction false} ExitQueuedIff(assets: seq<seq<Bar>>, date: int, b: Book, n: nat, k: nat, sym: nat)
    requires AllSorted(assets) && Known(ViewOn(assets, date), b.op) && n <= |b.op| && forall i :: 0 <= i < |b.op| ==> b.op[i].seen <= k
    ensures sym in GoOver(ViewOn(assets, date), b, n, k).pe <==>
      (exists i :: 0 <= i < n && b.op[i].sym == sym) && ToldToLeave(assets, sym, date)
  {
    var v := ViewOn(assets, date);
    if n > 0 {
      ExitQueuedIff(assets, date, b, n - 1, k, sym);
      var p := b.op[n - 1];
      SeenIs(assets, date, k, p);
      GoOverOneIs(v, GoOver(v, b, n - 1, k), Seen(v, p, k), k);
      LeavesIff(assets, date, Seen(v, p, k));
      TodayMeansNotGone(assets, date, k, p);
      assert Seen(v, p, k).sym == p.sym;
      hide Leaves, GoOverOne, ToldToLeave, ViewOn, Seen, Gone, BarOf, Updated, Delisted, AllSorted;
    }
  }

  /** One position more: it stays as updated, or it is closed at its last close. */
  ghost predicate StaysOrCloses(assets: seq<seq<Bar>>, date: int, p: Position, k: nat, after: Book, after': Book) {
    if Delisted(assets, date, k, p) then
      after'.op == after.op && exists t :: after'.trades == after.trades + [t] && ClosedAtLast(t, p, k)
    else
      after'.trades == after.trades && exists q :: after'.op == after.op + [q] && Updated(assets, date, k, p, q)
  }

  lemma OneMore(assets: seq<seq<Bar>>, date: int, b: Book, n: nat, k: nat)
    requires AllSorted(assets) && Known(ViewOn(assets, date), b.op) && n < |b.op| && b.op[n].seen <= k
    ensures var v := ViewOn(assets, date);
      StaysOrCloses(assets, date, b.op[n], k, GoOver(v, b, n, k).book, GoOver(v, b, n + 1, k).book)
  {
    var v := ViewOn(assets, date);
    var p := b.op[n];
    var q := Seen(v, p, k);
    SeenIs(assets, date, k, p);
    LastCloseIs(p, k);
    GoOverOneIs(v, GoOver(v, b, n, k), q, k);
    hide Leaves, GoOverOne, ViewOn, Seen, Gone, BarOf, Updated, Delisted, ClosedAtLast, Closed, Proceeds, AllSorted;
    assert GoOver(v, b, n + 1, k) == GoOverOne(v, GoOver(v, b, n, k), q, k);
  }

  ghost predicate Distinct(syms: seq<nat>) {
    forall i, j :: 0 <= i < j < |syms| ==> syms[i] != syms[j]
  }

  lemma StillDistinct(syms: seq<nat>, sym: nat)
    requires Distinct(syms) && sym !in syms
    ensures Distinct(syms + [sym])
  {}

  /** No asset is told to leave twice. */
  lemma {:induction false} ExitsQueuedOnce(v: View, b: Book, n: nat, k: nat)
    requires Known(v, b.op) && n <= |b.op|
    ensures Distinct(GoOver(v, b, n, k).pe)
  {
    if n > 0 {
      ExitsQueuedOnce(v, b, n - 1, k);
      var pe, sym := GoOver(v, b, n - 1, k).pe, b.op[n - 1].sym;
      hide Leaves, Gone, Closed, Proceeds, Distinct;
      if sym !in pe {
        StillDistinct(pe, sym);
      }
      assert GoOver(v, b, n, k).pe == pe || (sym !in pe && GoOver(v, b, n, k).pe == pe + [sym]);
    }
  }

  /** The first n positions: who is still held, and how. */
  ghost predicate HeldOn(assets: seq<seq<Bar>>, date: int, op: seq<Position>, n: nat, k: nat, after: seq<Position>)
    requires n <= |op|
  {
    && (forall i :: 0 <= i < n && !Delisted(assets, date, k, op[i]) ==>
          exists q :: q in after && Updated(assets, date, k, op[i], q))
    && (forall q :: q in after ==>
          exists i :: 0 <= i < n && !Delisted(assets, date, k, op[i]) && Updated(assets, date, k, op[i], q))
  }

  /** The first n positions: which were closed for want of bars, and how. */
  ghost predicate ClosedOut(assets: seq<seq<Bar>>, date: int, b: Book, n: nat, k: nat, trades: seq<Trade>)
    requires n <= |b.op|
  {
    && b.trades <= trades
    && (forall i :: 0 <= i < n && Delisted(assets, date, k, b.op[i]) ==>
          exists t :: t in trades[|b.trades|..] && ClosedAtLast(t, b.op[i], k))
    && (forall t :: t in trades[|b.trades|..] ==>
          exists i :: 0 <= i < n && Delisted(assets, date, k, b.op[i]) && ClosedAtLast(t, b.op[i], k))
  }

  lemma HeldOneMore(assets: seq<seq<Bar>>, date: int, op: seq<Position>, n: nat, k: nat, after: seq<Position>, q: Position)
    requires n < |op| && HeldOn(assets, date, op, n, k, after)
    ensures Delisted(assets, date, k, op[n]) ==> HeldOn(assets, date, op, n + 1, k, after)
    ensures !Delisted(assets, date, k, op[n]) && Updated(assets, date, k, op[n], q) ==> HeldOn(assets, date, op, n + 1, k, after + [q])
  {
    hide Delisted, Updated;
    assert q in after + [q];
    assert forall x :: x in after + [q] <==> x in after || x == q;
  }

  lemma ClosedOneMore(assets: seq<seq<Bar>>, date: int, b: Book, n: nat, k: nat, trades: seq<Trade>, t: Trade)
    requires n < |b.op| && ClosedOut(assets, date, b, n, k, trades)
    ensures !Delisted(assets, date, k, b.op[n]) ==> ClosedOut(assets, date, b, n + 1, k, trades)
    ensures Delisted(assets, date, k, b.op[n]) && ClosedAtLast(t, b.op[n], k) ==> ClosedOut(assets, date, b, n + 1, k, trades + [t])
  {
    hide Delisted, ClosedAtLast;
    var m := |b.trades|;
    assert (trades + [t])[m..] == trades[m..] + [t];
    assert forall x :: x in trades[m..] + [t] <==> x in trades[m..] || x == t;
    assert t in trades[m..] + [t];
  }

  /** The evening of the first n positions, in the two parts above. */
  ghost predicate GoneOver(assets: seq<seq<Bar>>, date: int, b: Book, n: nat, k: nat, after: Book)
    requires n <= |b.op|
  {
    HeldOn(assets, date, b.op, n, k, after.op) && ClosedOut(assets, date, b, n, k, after.trades)
  }

  lemma NothingGoneOver(assets: seq<seq<Bar>>, date: int, b: Book, k: nat, after: Book)
    requires after.op == [] && after.trades == b.trades
    ensures GoneOver(assets, date, b, 0, k, after)
  {
    hide Delisted, Updated, ClosedAtLast;
    assert b.trades[|b.trades|..] == [];
  }

  lemma OneMoreGoneOver(assets: seq<seq<Bar>>, date: int, b: Book, n: nat, k: nat, after: Book, after': Book)
    requires n < |b.op| && GoneOver(assets, date, b, n, k, after)
    requires StaysOrCloses(assets, date, b.op[n], k, after, after')
    ensures GoneOver(assets, date, b, n + 1, k, after')
  {
    var p := b.op[n];
    hide Updated, Delisted, ClosedAtLast, HeldOn, ClosedOut;
    if Delisted(assets, date, k, p) {
      var t :| after'.trades == after.trades + [t] && ClosedAtLast(t, p, k);
      ClosedOneMore(assets, date, b, n, k, after.trades, t);
      HeldOneMore(assets, date, b.op, n, k, after.op, p);
    } else {
      var q :| after'.op == after.op + [q] && Updated(assets, date, k, p, q);
      HeldOneMore(assets, date, b.op, n, k, after.op, q);
      ClosedOneMore(assets, date, b, n, k, after.trades, Closed(p, p.lastpx, k));
    }
  }

  lemma GoneOverNext(assets: seq<seq<Bar>>, date: int, b: Book, n: nat, k: nat)
    requires AllSorted(assets) && Known(ViewOn(assets, date), b.op) && n < |b.op| && b.op[n].seen <= k
    requires GoneOver(assets, date, b, n, k, GoOver(ViewOn(assets, date), b, n, k).book)
    ensures GoneOver(assets, date, b, n + 1, k, GoOver(ViewOn(assets, date), b, n + 1, k).book)
  {
    var v := ViewOn(assets, date);
    var after, after' := GoOver(v, b, n, k).book, GoOver(v, b, n + 1, k).book;
    OneMore(assets, date, b, n, k);
    hide *;
    assert StaysOrCloses(assets, date, b.op[n], k, after, after');
    OneMoreGoneOver(assets, date, b, n, k, after, after');
  }

  /** Still held are exactly the positions not delisted; the delisted ones are closed at their last close. */
  lemma {:induction false} ForcedCloses(assets: seq<seq<Bar>>, date: int, b: Book, n: nat, k: nat)
    requires AllSorted(assets) && Known(ViewOn(assets, date), b.op) && n <= |b.op| && forall i :: 0 <= i < |b.op| ==> b.op[i].seen <= k
    ensures GoneOver(assets, date, b, n, k, GoOver(ViewOn(assets, date), b, n, k).book)
  {
    hide ViewOn, GoneOver;
    if n > 0 {
      ForcedCloses(assets, date, b, n - 1, k);
      GoneOverNext(assets, date, b, n - 1, k);
    } else {
      NothingGoneOver(assets, date, b, k, GoOver(ViewOn(assets, date), b, n, k).book);
    }
  }

  /** The asset breaks out today, by so much. */
  ghost predicate BreaksOutBy(assets: seq<seq<Bar>>, date: int, x: Cand) {
    exists j :: BarOf(assets, x.sym, date, j) && BreaksOut(assets[x.sym], j)
      && x.strength == assets[x.sym][j].close - Highest(assets[x.sym], j - 20, j - 1)
  }

  lemma OneCandidate(assets: seq<seq<Bar>>, date: int, op: seq<Position>, x: Cand)
    requires AllSorted(assets) && x.sym < |assets|
    ensures var v := ViewOn(assets, date);
      && (Enters(v, op, x.sym) && x.strength == v[x.sym].value.close - v[x.sym].value.donch.value
          <==> (forall i :: 0 <= i < |op| ==> op[i].sym != x.sym) && BreaksOutBy(assets, date, x))
  {
    EntersIff(assets, date, op, x.sym);
    OneBar(assets, x.sym, date);
    assert Held(op, x.sym).None? <==> forall i :: 0 <= i < |op| ==> op[i].sym != x.sym;
    hide Held, ViewOn, Highest, CloseSum, AllSorted;
  }

  /** A candidate is exactly an asset not held whose bar today breaks out, with the height of the breakout. */
  lemma {:induction false} CandidateIff(assets: seq<seq<Bar>>, date: int, op: seq<Position>, n: nat, x: Cand)
    requires AllSorted(assets) && n <= |assets|
    ensures x in Candidates(ViewOn(assets, date), op, n) <==>
      x.sym < n && (forall i :: 0 <= i < |op| ==> op[i].sym != x.sym) && BreaksOutBy(assets, date, x)
  {
    if n > 0 {
      CandidateIff(assets, date, op, n - 1, x);
      if x.sym == n - 1 {
        OneCandidate(assets, date, op, x);
      }
      hide Enters, ViewOn, BreaksOutBy, AllSorted;
    }
  }

  /** Tomorrow's entries: of the candidates the strongest, as many as eight leave room for once the queued exits are gone. */
  lemma ChosenAre(assets: seq<seq<Bar>>, date: int, op: seq<Position>, pe: seq<nat>) returns (best: seq<Cand>)
    ensures var pen, free := Chosen(ViewOn(assets, date), op, pe), 8 - |op| + |pe|;
      && |best| == |pen| && (forall i :: 0 <= i < |pen| ==> pen[i] == best[i].sym)
      && var all := Candidates(ViewOn(assets, date), op, |assets|);
         && |pen| == (if free <= 0 then 0 else if free <= |all| then free else |all|)
         && (forall x :: x in best ==> x in all)
         && (forall i, j :: 0 <= i < j < |best| ==>
               best[i].strength > best[j].strength || (best[i].strength == best[j].strength && best[i].sym < best[j].sym))
         && (forall x, y :: x in best && y in all && y !in best ==>
               x.strength > y.strength || (x.strength == y.strength && x.sym < y.sym))
  {
    var v := ViewOn(assets, date);
    BestAreStrongest(v, op, pe);
    best := Best(v, op, pe);
    hide ViewOn, Candidates, Best;
  }

  /** Of sorted bars there is one on a date. */
  lemma OneBar(assets: seq<seq<Bar>>, sym: nat, date: int)
    requires AllSorted(assets)
    ensures forall i, j :: BarOf(assets, sym, date, i) && BarOf(assets, sym, date, j) ==> i == j
  {
    if sym < |assets| {
      assert Sorted(assets[sym]);
    }
  }
}
