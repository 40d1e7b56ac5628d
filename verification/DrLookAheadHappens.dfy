/**
 The look-ahead happens: two assets that double one day apart, the second filled on
 a day on which the first is held and quoted. Two data sets then agree in everything
 known at that day's open, and the fills differ.
 */
module DrLookAheadHappens {
  import opened Basics
  import opened ReplayCalendar
  import opened DrReplay
  import opened DrCausality
  import opened DrEntrySize
  import opened DrLookAhead
  import Ranking

  /** The engine's first mode: an eighth of the equity each, no controls. */
  const AGGRESSIVE := Params(0.125, 1.0, false, None)

  const LENGTH: nat := 213

  function Price(jump: nat, j: nat): real {
    if j < jump then 1.0 else 2.0
  }

  /** One bar a day, flat at 1, from a day on flat at 2. */
  function Series(jump: nat): (bars: seq<Bar>)
    ensures |bars| == LENGTH
    ensures forall j :: 0 <= j < LENGTH ==> bars[j] == Bar(j, Some(Price(jump, j)), Price(jump, j), Price(jump, j), Price(jump, j))
  {
    seq(LENGTH, j requires 0 <= j < LENGTH => Bar(j, Some(Price(jump, j)), Price(jump, j), Price(jump, j), Price(jump, j)))
  }

  function Pair(): seq<seq<Bar>> {
    [Series(WARM), Series(WARM + 1)]
  }

  // ── Indicators of a series ──────────────────────────────────────────────

  lemma {:induction false} HighestOf(jump: nat, from: nat, j: nat)
    requires from <= j < LENGTH
    ensures Highest(Series(jump), from, j) == Price(jump, j)
    decreases j - from
  {
    if from < j {
      HighestOf(jump, from, j - 1);
    }
  }

  lemma {:induction false} CloseSumOf(jump: nat, from: nat, j: nat)
    requires from <= j < LENGTH
    ensures CloseSum(Series(jump), from, j) <= 2.0 * (j - from + 1) as real
    ensures from < jump ==> CloseSum(Series(jump), from, j) < 2.0 * (j - from + 1) as real
    decreases j - from
  {
    if from < j {
      CloseSumOf(jump, from, j - 1);
    }
  }

  lemma {:induction false} AtrOf(jump: nat, j: nat, p: nat)
    requires j < LENGTH && p > 0
    ensures Atr(Series(jump), j, p) >= 0.0
  {
    hide Series;
    var alpha := 1.0 / p as real;
    assert 0.0 <= alpha <= 1.0;
    assert TrueRange(Series(jump), j) >= 0.0;
    if j > 0 {
      AtrOf(jump, j - 1, p);
      TimesSign(1.0 - alpha, Atr(Series(jump), j - 1, p));
      TimesSign(alpha, TrueRange(Series(jump), j));
    }
    hide TrueRange, Times;
  }

  lemma SeriesSorted(jump: nat)
    ensures Sorted(Series(jump)) && Increasing(DatesOf(Series(jump)))
  {}

  lemma PairSorted()
    ensures forall i :: 0 <= i < |Pair()| ==> Sorted(Pair()[i])
  {
    SeriesSorted(WARM);
    SeriesSorted(WARM + 1);
    hide Series, Sorted;
  }

  /** What the engine sees of a series on a day. */
  lemma QuoteOf(jump: nat, j: nat) returns (q: Quote)
    requires j < LENGTH
    ensures QuoteOn(Series(jump), j) == Some(q) && q.j == j && q.open == Some(Price(jump, j)) && q.close == Price(jump, j)
    ensures j >= WARM ==> q.donch == Some(Price(jump, j - 1))
    ensures j >= WARM && j - 199 < jump ==> q.sma200.Some? && q.sma200.value < 2.0
    ensures j >= WARM ==> q.chand.Some? && q.chand.value <= Price(jump, j)
  {
    SeriesSorted(jump);
    BarOnIs(DatesOf(Series(jump)), j, j);
    q := QuoteOn(Series(jump), j).value;
    hide Highest, CloseSum, Atr, BarOn, AtrShare;
    if j >= WARM {
      HighestOf(jump, j - DONCH, j - 1);
      HighestOf(jump, j - (ATRL - 1), j);
      CloseSumOf(jump, j - 199, j);
      AtrOf(jump, j, ATRL);
    }
  }

  // ── The calendar ────────────────────────────────────────────────────────

  lemma {:induction false} Consecutive(s: seq<int>, n: nat, k: nat)
    requires Increasing(s) && (forall d :: d in s <==> 0 <= d < n) && k < n
    ensures k < |s| && s[k] == k
  {
    if k > 0 {
      Consecutive(s, n, k - 1);
    }
    assert k in s;
    var i :| 0 <= i < |s| && s[i] == k;
    if k > 0 {
      Ordered(s, k - 1, i);
    }
    assert s[k] in s;
    Ordered(s, k, i);
  }

  lemma DayIs(k: nat)
    requires k < LENGTH
    ensures k < |Days(Pair())| && Days(Pair())[k] == k
  {
    DaysAre(Pair(), 0);
    forall d
      ensures d in Days(Pair()) <==> 0 <= d < LENGTH
    {
      DaysAre(Pair(), d);
      if 0 <= d < LENGTH {
        var q := QuoteOf(WARM, d);
        assert QuoteOn(Pair()[0], d).Some?;
      }
      hide Days;
    }
    hide Days, QuoteOn;
    Consecutive(Days(Pair()), LENGTH, k);
  }

  // ── The run up to the day ───────────────────────────────────────────────

  lemma OneCandidate(v: View, op: seq<Position>, sym: nat)
    requires |v| == 2 && sym < 2 && Enters(v, op, sym) && !Enters(v, op, 1 - sym)
    ensures Candidates(v, op, 2) == [Cand(sym, v[sym].value.close - v[sym].value.donch.value)]
  {
    var x := Cand(sym, v[sym].value.close - v[sym].value.donch.value);
    hide Enters;
    assert Candidates(v, op, 0) == [];
    assert Candidates(v, op, 1) == if sym == 0 then [x] else [];
  }

  lemma OneRanked(x: Cand)
    ensures Ranking.Ranked(RankKey, [x]) == [x]
  {
    assert [x][..0] == [];
    assert Ranking.Ranked(RankKey, [][..0]) == [];
  }

  /** Two assets, one of which breaks out: it is bought tomorrow. */
  lemma OneBreakout(v: View, op: seq<Position>, sym: nat)
    requires |v| == 2 && sym < 2 && Enters(v, op, sym) && !Enters(v, op, 1 - sym) && |op| < MAX_POS
    ensures Chosen(v, op, []) == [sym]
  {
    var x := Cand(sym, v[sym].value.close - v[sym].value.donch.value);
    OneCandidate(v, op, sym);
    OneRanked(x);
    hide Enters, Candidates, Ranking.Ranked;
    assert Best(v, op, []) == [x];
  }

  lemma NoBreakout(v: View, op: seq<Position>)
    requires |v| == 2 && !Enters(v, op, 0) && !Enters(v, op, 1)
    ensures Chosen(v, op, []) == []
  {
    hide Enters;
    assert Candidates(v, op, 0) == [];
    assert Candidates(v, op, 1) == [];
    assert Candidates(v, op, 2) == [];
  }

  ghost predicate Waiting(s: Sim, pen: seq<nat>) {
    s.book == START.book && s.pe == [] && s.pen == pen && s.peak == NAV0
  }

  /** A day without positions and pending entries. */
  lemma EmptyDay(v: View, s: Sim, k: nat, pen: seq<nat>)
    requires Waiting(s, []) && Chosen(v, [], []) == pen
    ensures Waiting(Day(AGGRESSIVE, v, s, k), pen)
  {
    hide Chosen, RiskMult;
    var b := START.book;
    assert FillExits(v, b, [], k) == b;
    assert EquityNow(v, b) == NAV0;
    assert Entered(AGGRESSIVE, v, b, [], NAV0, k) == b;
    assert GoOver(v, b, 0, k) == Evening(b, []);
  }

  lemma {:induction false} NothingYet(n: nat)
    requires n <= WARM && n <= |Days(Pair())|
    ensures Waiting(After(AGGRESSIVE, Pair(), n), [])
  {
    hide Day, Days, ViewOn;
    if n > 0 {
      NothingYet(n - 1);
      DayIs(n - 1);
      var q0 := QuoteOf(WARM, n - 1);
      var q1 := QuoteOf(WARM + 1, n - 1);
      var v := Today(Pair(), n - 1);
      assert v[0] == QuoteOn(Pair()[0], n - 1) && v[1] == QuoteOn(Pair()[1], n - 1);
      hide QuoteOn, Series;
      NoBreakout(v, []);
      EmptyDay(v, After(AGGRESSIVE, Pair(), n - 1), n - 1, []);
    }
  }

  lemma TodayIs(k: nat) returns (q0: Quote, q1: Quote)
    requires WARM <= k < LENGTH
    ensures k < |Days(Pair())| && Today(Pair(), k) == [Some(q0), Some(q1)]
    ensures q0.j == k && q0.open == Some(2.0) && q0.close == 2.0 && q0.donch == Some(Price(WARM, k - 1))
    ensures q1.j == k && q1.open == Some(Price(WARM + 1, k)) && q1.close == Price(WARM + 1, k) && q1.donch == Some(Price(WARM + 1, k - 1))
    ensures q0.sma200.Some? && q0.sma200.value < 2.0 && q1.sma200.Some? && q1.sma200.value < 2.0
    ensures q0.chand.Some? && q0.chand.value <= 2.0
  {
    DayIs(k);
    q0 := QuoteOf(WARM, k);
    q1 := QuoteOf(WARM + 1, k);
    hide QuoteOn, Series, Days;
  }

  lemma AfterIs(k: nat)
    requires k < |Days(Pair())|
    ensures After(AGGRESSIVE, Pair(), k + 1) == Day(AGGRESSIVE, Today(Pair(), k), After(AGGRESSIVE, Pair(), k), k)
  {}

  /** Before and after a jump from 1 to 2. */
  lemma JumpEnters(v: View, op: seq<Position>, sym: nat)
    requires |v| == 2 && sym < 2 && v[sym].Some? && v[sym].value.j >= WARM
    requires v[sym].value.sma200.Some? && v[sym].value.sma200.value < 2.0
    ensures Held(op, sym).Some? ==> !Enters(v, op, sym)
    ensures v[sym].value.donch == Some(v[sym].value.close) ==> !Enters(v, op, sym)
    ensures Held(op, sym).None? && v[sym].value.donch == Some(1.0) && v[sym].value.close == 2.0 ==> Enters(v, op, sym)
  {
    hide Held;
  }

  /** The day on which the first asset breaks out. */
  lemma DayStarts(v: View, s: Sim, q0: Quote, q1: Quote)
    requires v == [Some(q0), Some(q1)] && Waiting(s, []) && q0.j >= WARM && q1.j >= WARM
    requires q0.close == 2.0 && q0.donch == Some(1.0) && q0.sma200.Some? && q0.sma200.value < 2.0
    requires q1.donch == Some(q1.close) && q1.sma200.Some? && q1.sma200.value < 2.0
    ensures Fits(v, s) && Waiting(Day(AGGRESSIVE, v, s, WARM), [0])
  {
    JumpEnters(v, [], 0);
    JumpEnters(v, [], 1);
    hide Enters, Chosen, Day;
    OneBreakout(v, [], 0);
    EmptyDay(v, s, WARM, [0]);
  }

  lemma FirstBreaksOut()
    ensures WARM + 1 <= |Days(Pair())| && Waiting(After(AGGRESSIVE, Pair(), WARM + 1), [0])
  {
    var q0, q1 := TodayIs(WARM);
    hide Days, Day, After, Today, Waiting;
    NothingYet(WARM);
    DayStarts(Today(Pair(), WARM), After(AGGRESSIVE, Pair(), WARM), q0, q1);
    AfterIs(WARM);
  }

  /** The first asset held, the second pending. */
  ghost predicate Loaded(s: Sim) {
    && s.book.cash == 874.875 && |s.book.op| == 1 && s.book.op[0].sym == 0
    && s.pe == [] && s.pen == [1] && s.peak >= NAV0
  }

  lemma FirstFill(v: View) returns (p: Position)
    requires |v| == 2 && v[0].Some? && v[0].value.open == Some(2.0)
    ensures p.sym == 0 && Entered(AGGRESSIVE, v, START.book, [0], NAV0, WARM + 1) == Book(874.875, [p], [])
  {
    var b := START.book;
    assert EquityNow(v, b) == NAV0;
    assert PeakNow(v, NAV0, b) == NAV0;
    var f := Filling(b, 0.0);
    assert Spend(AGGRESSIVE, v[0].value, NAV0, 1.0, f) == 125.0;
    BuyPositive(2.0);
    var buy: Positive := Times(2.0, 1.0 + SLIP);
    QtyPositive(125.0, buy);
    p := Position(0, buy, 125.0 / buy, WARM + 1, 125.0, WARM + 1, buy);
    assert 125.0 / buy * buy == 125.0;
    assert Cost(p) == 125.125;
    var g := Filling(Book(874.875, [p], []), 125.0);
    assert FillEntry(AGGRESSIVE, v, f, 0, NAV0, 1.0, WARM + 1) == g;
    hide FillEntry, EquityNow, PeakNow;
    assert FillEntries(AGGRESSIVE, v, g, [], NAV0, 1.0, WARM + 1) == g;
    assert [0][1..] == [];
  }

  /** An evening with one held position that has a bar and no reason to leave. */
  lemma QuietEvening(v: View, b: Book, k: nat)
    requires Known(v, b.op) && |b.op| == 1 && v[b.op[0].sym].Some? && !Leaves(v, b.op[0])
    ensures GoOver(v, b, 1, k) == Evening(Book(b.cash, [Seen(v, b.op[0], k)], b.trades), [])
  {
    hide Leaves;
    assert GoOver(v, b, 0, k) == Evening(Book(b.cash, [], b.trades), []);
    assert !Gone(Seen(v, b.op[0], k), k);
    assert Leaves(v, Seen(v, b.op[0], k)) == Leaves(v, b.op[0]) by { LeavesBySym(v, b.op[0], k); }
  }

  lemma LeavesBySym(v: View, p: Position, k: nat)
    requires p.sym < |v|
    ensures Leaves(v, Seen(v, p, k)) == Leaves(v, p)
  {}

  /** The day on which the first asset is filled and the second breaks out. */
  lemma DayLoads(v: View, s: Sim, q0: Quote, q1: Quote)
    requires v == [Some(q0), Some(q1)] && Waiting(s, [0])
    requires q0.open == Some(2.0) && q0.close == 2.0 && q0.j >= WARM && q1.j >= WARM
    requires q0.chand.Some? && q0.chand.value <= 2.0 && q0.sma200.Some? && q0.sma200.value < 2.0
    requires q1.close == 2.0 && q1.donch == Some(1.0) && q1.sma200.Some? && q1.sma200.value < 2.0
    ensures Fits(v, s) && Loaded(Day(AGGRESSIVE, v, s, WARM + 1))
  {
    var k := WARM + 1;
    var p := FirstFill(v);
    var b := Book(874.875, [p], []);
    var held := Seen(v, p, k);
    assert Held([held], 0).Some? && Held([held], 1).None?;
    JumpEnters(v, [held], 0);
    JumpEnters(v, [held], 1);
    hide Held, Entered, Enters, Chosen, EquityNow;
    QuietEvening(v, b, k);
    OneBreakout(v, [held], 1);
    assert FillExits(v, s.book, [], k) == s.book;
    hide GoOver;
  }

  lemma SecondPends()
    ensures WARM + 2 <= |Days(Pair())| && Loaded(After(AGGRESSIVE, Pair(), WARM + 2))
  {
    FirstBreaksOut();
    var q0, q1 := TodayIs(WARM + 1);
    hide Days, After, Today, Day, Waiting, Loaded;
    DayLoads(Today(Pair(), WARM + 1), After(AGGRESSIVE, Pair(), WARM + 1), q0, q1);
    AfterIs(WARM + 1);
  }

  /** What the second asset's fill spends is never nothing. */
  lemma Spends(peak: Positive, equity: real)
    requires equity >= 874.875
    ensures SizeAt(AGGRESSIVE, 874.875, peak, equity) > 0.0
  {
    RiskIs(AGGRESSIVE, peak, equity);
    assert Times(0.125, equity) >= 109.0;
    assert RiskAt(AGGRESSIVE, peak, equity) == 1.0;
    hide RiskAt;
  }

  /** The day's view with the first asset held and the second pending. */
  lemma LoadedLooks(v: View, s: Sim, k: nat)
    requires |v| == 2 && Loaded(s) && v[0].Some? && v[1].Some? && v[1].value.open == Some(2.0)
    ensures Fits(v, s) && FillExits(v, s.book, s.pe, k) == s.book
    ensures LooksAhead(AGGRESSIVE, v, s.book, s.pen, s.peak) && CanFill(v, s.book, s.pen)
  {
    var b := s.book;
    assert FillExits(v, b, [], k) == b;
    assert b.op[..0] == [];
    assert Unquoted(v, b.op) == 0.0;
    RiskIs(AGGRESSIVE, s.peak, 874.875);
    assert Held(b.op, 1).None?;
    assert v[b.op[0].sym].Some?;
    hide RiskAt;
  }

  /** Different books mean different sizes of the one fill. */
  lemma SizesTell(v: View, w: View, s: Sim, k: nat)
    requires |v| == 2 && Loaded(s) && SameOpens(v, w) && CanFill(v, s.book, s.pen)
    requires Entered(AGGRESSIVE, v, s.book, [1], s.peak, k) != Entered(AGGRESSIVE, w, s.book, [1], s.peak, k)
    ensures var x, y := Entered(AGGRESSIVE, v, s.book, [1], s.peak, k).op, Entered(AGGRESSIVE, w, s.book, [1], s.peak, k).op;
      |x| > 1 && |y| > 1 && x[1].sz != y[1].sz
  {
    var b := s.book;
    SameCanFill(v, w, b, [1]);
    EquityAbove(v, b);
    EquityAbove(w, b);
    Spends(s.peak, EquityNow(v, b));
    Spends(s.peak, EquityNow(w, b));
    hide EquityNow, EquityKnown, Entered, SizeAt, CanFill;
    if SizeAt(AGGRESSIVE, b.cash, s.peak, EquityNow(v, b)) == SizeAt(AGGRESSIVE, b.cash, s.peak, EquityNow(w, b)) {
      OneEntry(AGGRESSIVE, v, w, b, 1, s.peak, k);
    }
    EnteredIs(AGGRESSIVE, v, b, [1], s.peak, k);
    EnteredIs(AGGRESSIVE, w, b, [1], s.peak, k);
  }

  /**
   On the day after, the second asset's fill looks ahead: some data agree with these in
   everything before the day and at its open, and spend another amount on it.
   */
  lemma LookAheadHappens() returns (other: seq<seq<Bar>>)
    ensures WARM + 2 < |Days(Pair())| && Looks(AGGRESSIVE, Pair(), WARM + 2)
    ensures OpensAgree(Pair(), other, WARM + 2) && WARM + 2 < |Days(other)|
    ensures var x, y := Filled(AGGRESSIVE, Pair(), WARM + 2).op, Filled(AGGRESSIVE, other, WARM + 2).op;
      |x| > 1 && |y| > 1 && x[1].sz != y[1].sz
  {
    var k := WARM + 2;
    SecondPends();
    var q0, q1 := TodayIs(k);
    var v, s := Today(Pair(), k), After(AGGRESSIVE, Pair(), k);
    hide Days, After, OpensAgree, Entered, Series, Sorted;
    PairSorted();
    LoadedLooks(v, s, k);
    LookAheadIff(AGGRESSIVE, Pair(), k);
    hide Looks, FillsAgree, LooksAhead, CanFill;
    other :| OpensAgree(Pair(), other, k) && !FillsAgree(AGGRESSIVE, Pair(), other, k);
    FilledThere(AGGRESSIVE, Pair(), other, k);
    Disagree(other, k);
    SizesTell(v, ViewOn(other, Days(Pair())[k]), s, k);
  }

  lemma Disagree(other: seq<seq<Bar>>, k: nat)
    requires k < |Days(Pair())| && k < |Days(other)| && !FillsAgree(AGGRESSIVE, Pair(), other, k)
    ensures Filled(AGGRESSIVE, other, k) != Filled(AGGRESSIVE, Pair(), k)
  {
    hide Days, Filled;
  }
}
