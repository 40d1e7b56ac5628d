/**
 The trend replay is causal by day: two data sets that agree on all bars up to a
 date give the same equity, positions, pending lists and closed trades through the
 last day not after it. The indicators of a bar look at no later bar; the shared
 calendar up to a date depends on no later date.
 */
module DrCausality {
  import opened Basics
  import opened ReplayCalendar
  import opened DrReplay

  // ── Indicators ──────────────────────────────────────────────────────────

  /** The same first bars. */
  predicate SameUpTo(a: seq<Bar>, b: seq<Bar>, j: nat) {
    j < |a| && j < |b| && a[..j + 1] == b[..j + 1]
  }

  lemma SameBars(a: seq<Bar>, b: seq<Bar>, j: nat, i: nat)
    requires SameUpTo(a, b, j) && i <= j
    ensures a[i] == b[i] && SameUpTo(a, b, i)
  {
    assert a[..j + 1][i] == b[..j + 1][i];
    assert a[..i + 1] == a[..j + 1][..i + 1];
  }

  lemma SameTrueRange(a: seq<Bar>, b: seq<Bar>, j: nat)
    requires SameUpTo(a, b, j)
    ensures TrueRange(a, j) == TrueRange(b, j)
  {
    SameBars(a, b, j, j);
    SameBars(a, b, j, if j == 0 then 0 else j - 1);
  }

  lemma {:induction false} SameAtr(a: seq<Bar>, b: seq<Bar>, j: nat, p: nat)
    requires SameUpTo(a, b, j) && p > 0
    ensures Atr(a, j, p) == Atr(b, j, p)
  {
    SameTrueRange(a, b, j);
    if j > 0 {
      SameBars(a, b, j, j - 1);
      SameAtr(a, b, j - 1, p);
    }
    hide TrueRange, Times;
  }

  lemma {:induction false} SameHighest(a: seq<Bar>, b: seq<Bar>, from: nat, j: nat)
    requires SameUpTo(a, b, j) && from <= j
    ensures Highest(a, from, j) == Highest(b, from, j)
  {
    SameBars(a, b, j, j);
    if from < j {
      SameBars(a, b, j, j - 1);
      SameHighest(a, b, from, j - 1);
    }
  }

  lemma {:induction false} SameCloseSum(a: seq<Bar>, b: seq<Bar>, from: nat, j: nat)
    requires SameUpTo(a, b, j) && from <= j
    ensures CloseSum(a, from, j) == CloseSum(b, from, j)
  {
    SameBars(a, b, j, j);
    if from < j {
      SameBars(a, b, j, j - 1);
      SameCloseSum(a, b, from, j - 1);
    }
  }

  /** No indicator of a bar looks at a later bar. */
  lemma IndicatorsAreCausal(a: seq<Bar>, b: seq<Bar>, j: nat)
    requires SameUpTo(a, b, j)
    ensures Donchian(a, j) == Donchian(b, j)
    ensures Sma200(a, j) == Sma200(b, j)
    ensures Chandelier(a, j) == Chandelier(b, j)
    ensures AtrShare(a, j) == AtrShare(b, j)
  {
    hide Highest, CloseSum, Atr;
    SameBars(a, b, j, j);
    if j >= DONCH {
      SameBars(a, b, j, j - 1);
      SameHighest(a, b, j - DONCH, j - 1);
    }
    if j >= 199 {
      SameCloseSum(a, b, j - 199, j);
    }
    if j >= ATRL - 1 {
      SameHighest(a, b, j - (ATRL - 1), j);
    }
    SameAtr(a, b, j, ATRL);
    SameAtr(a, b, j, 14);
  }

  // ── Data sets that agree up to a date ───────────────────────────────────

  /** One bar a day, in order, as the loader leaves them. */
  ghost predicate Sorted(bars: seq<Bar>) {
    forall i, j :: 0 <= i < j < |bars| ==> bars[i].date < bars[j].date
  }

  /** The bars dated on or before a date, of sorted bars. */
  function Until(bars: seq<Bar>, date: int): (u: seq<Bar>)
    ensures u <= bars
    ensures |u| < |bars| ==> bars[|u|].date > date
    ensures u != [] ==> u[|u| - 1].date <= date
  {
    if bars == [] then []
    else if bars[|bars| - 1].date <= date then bars
    else
      var u := Until(bars[..|bars| - 1], date);
      u
  }

  ghost predicate Agree(a: seq<seq<Bar>>, b: seq<seq<Bar>>, date: int) {
    && |a| == |b|
    && forall i :: 0 <= i < |a| ==> Sorted(a[i]) && Sorted(b[i]) && Until(a[i], date) == Until(b[i], date)
  }

  lemma UntilIs(bars: seq<Bar>, date: int, j: nat)
    requires Sorted(bars) && j < |bars|
    ensures bars[j].date <= date <==> j < |Until(bars, date)|
  {
    var u := Until(bars, date);
    if j < |u| {
      assert bars[|u| - 1] == u[|u| - 1];
    }
  }

  /** On a date not after the last agreed one, both assets show the same bar and indicators, or neither has one. */
  lemma SameQuote(a: seq<Bar>, b: seq<Bar>, date: int, d: int)
    requires Sorted(a) && Sorted(b) && Until(a, date) == Until(b, date) && d <= date
    ensures QuoteOn(a, d) == QuoteOn(b, d)
  {
    QuoteCarriesOver(a, b, date, d);
    QuoteCarriesOver(b, a, date, d);
  }

  lemma BarCarriesOver(a: seq<Bar>, b: seq<Bar>, date: int, j: nat)
    requires Sorted(a) && Sorted(b) && Until(a, date) == Until(b, date) && j < |a| && a[j].date <= date
    ensures SameUpTo(a, b, j) && a[j] == b[j]
  {
    UntilIs(a, date, j);
    var u := Until(a, date);
    assert a[..j + 1] == u[..j + 1] == b[..j + 1];
    assert a[j] == u[j] == b[j];
  }

  lemma QuoteCarriesOver(a: seq<Bar>, b: seq<Bar>, date: int, d: int)
    requires Sorted(a) && Sorted(b) && Until(a, date) == Until(b, date) && d <= date
    ensures QuoteOn(a, d).Some? ==> QuoteOn(b, d) == QuoteOn(a, d)
  {
    hide Donchian, Sma200, Chandelier, AtrShare, BarOn, Until;
    var at := BarOn(DatesOf(a), d);
    if at.Some? {
      BarCarriesOver(a, b, date, at.value);
      BarOnIs(DatesOf(b), d, at.value);
      IndicatorsAreCausal(a, b, at.value);
    }
  }

  lemma SameView(a: seq<seq<Bar>>, b: seq<seq<Bar>>, date: int, d: int)
    requires Agree(a, b, date) && d <= date
    ensures ViewOn(a, d) == ViewOn(b, d)
  {
    forall i | 0 <= i < |a|
      ensures QuoteOn(a[i], d) == QuoteOn(b[i], d)
    {
      SameQuote(a[i], b[i], date, d);
    }
    hide QuoteOn;
    assert ViewOn(a, d) == ViewOn(b, d);
  }

  // ── The calendar ────────────────────────────────────────────────────────

  lemma DaysAre(assets: seq<seq<Bar>>, d: int)
    ensures Increasing(Days(assets))
    ensures d in Days(assets) <==> exists a :: 0 <= a < |assets| && QuoteOn(assets[a], d).Some?
  {
    var all := AllDates(assets);
    CalendarIs(all);
    hide Calendar;
    if d in Days(assets) {
      var a :| 0 <= a < |all| && d in all[a];
      assert BarOn(DatesOf(assets[a]), d).Some?;
      assert QuoteOn(assets[a], d).Some?;
    }
    if a :| 0 <= a < |assets| && QuoteOn(assets[a], d).Some? {
      var j := BarOn(DatesOf(assets[a]), d).value;
      assert all[a][j] == d;
      assert d in all[a];
    }
  }

  lemma SameDates(a: seq<seq<Bar>>, b: seq<seq<Bar>>, date: int, d: int)
    requires Agree(a, b, date) && d <= date
    ensures d in Days(a) <==> d in Days(b)
  {
    SameView(a, b, date, d);
    DaysAre(a, d);
    DaysAre(b, d);
    assert forall i :: 0 <= i < |a| ==> QuoteOn(a[i], d) == ViewOn(a, d)[i] == QuoteOn(b[i], d);
    hide QuoteOn, Days, Agree;
  }

  lemma Ordered(s: seq<int>, i: nat, j: nat)
    requires Increasing(s) && i < |s| && j < |s|
    ensures s[i] < s[j] ==> i < j
    ensures i <= j ==> s[i] <= s[j]
  {}

  /** Increasing sequences with the same members up to a date agree place by place up to it. */
  lemma {:induction false} SamePlace(s: seq<int>, t: seq<int>, date: int, k: nat)
    requires Increasing(s) && Increasing(t) && k < |s| && s[k] <= date
    requires forall d :: d <= date ==> (d in s <==> d in t)
    ensures k < |t| && t[k] == s[k]
  {
    if k > 0 {
      SamePlace(s, t, date, k - 1);
    }
    assert s[k] in s;
    var i :| 0 <= i < |t| && t[i] == s[k];
    if k > 0 {
      Ordered(t, k - 1, i);
    }
    Ordered(t, k, i);
    assert t[k] in t;
    var j :| 0 <= j < |s| && s[j] == t[k];
    if k > 0 {
      Ordered(s, k - 1, j);
    }
    Ordered(s, k, j);
  }

  /** Day k of the calendar, if not after the agreed date, is day k of the other calendar too. */
  lemma SameDay(a: seq<seq<Bar>>, b: seq<seq<Bar>>, date: int, k: nat)
    requires Agree(a, b, date) && k < |Days(a)| && Days(a)[k] <= date
    ensures k < |Days(b)| && Days(b)[k] == Days(a)[k]
  {
    DaysAre(a, 0);
    DaysAre(b, 0);
    forall d | d <= date
      ensures d in Days(a) <==> d in Days(b)
    {
      SameDates(a, b, date, d);
    }
    hide Days, Agree, QuoteOn;
    SamePlace(Days(a), Days(b), date, k);
  }

  // ── The replay ──────────────────────────────────────────────────────────

  /**
   Causality: after any n days that end on or before a date up to which the data
   agree, the two replays are in the same state, history included.
   */
  lemma {:induction false} CausalByDay(c: Params, a: seq<seq<Bar>>, b: seq<seq<Bar>>, date: int, n: nat)
    requires Agree(a, b, date) && n <= |Days(a)| && (n > 0 ==> Days(a)[n - 1] <= date)
    ensures n <= |Days(b)| && After(c, a, n) == After(c, b, n)
  {
    if n > 0 {
      SameDay(a, b, date, n - 1);
      DaysAre(a, 0);
      hide Days, Agree, Day, QuoteOn, ViewOn;
      if n > 1 {
        assert Days(a)[n - 2] < Days(a)[n - 1];
      }
      CausalByDay(c, a, b, date, n - 1);
      SameView(a, b, date, Days(a)[n - 1]);
    }
  }
}
