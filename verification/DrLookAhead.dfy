/**
 What the trend replay's fills see of their own day. Entries are filled at the open
 but sized by the equity, and the equity marks held positions at the same day's
 closes. Without volatility targeting this file says exactly when the book after the
 fills depends on a close that is not known yet, in terms of what is known.
 */
module DrLookAhead {
  import opened Basics
  import opened ReplayCalendar
  import opened DrReplay
  import opened DrCausality
  import opened DrEntrySize

  // ── Days with the same opens ────────────────────────────────────────────

  predicate SameOpen(x: Option<Quote>, y: Option<Quote>) {
    x.Some? == y.Some? && (x.Some? ==> x.value.open == y.value.open)
  }

  /** The same assets trade and open at the same prices; everything else may differ. */
  predicate SameOpens(v: View, w: View) {
    |v| == |w| && forall a :: 0 <= a < |v| ==> SameOpen(v[a], w[a])
  }

  lemma SameExit(v: View, w: View, b: Book, sym: nat, k: nat)
    requires SameOpens(v, w) && Known(v, b.op)
    ensures FillExit(v, b, sym, k) == FillExit(w, b, sym, k)
  {
    var i := Held(b.op, sym);
    if i.Some? {
      assert SameOpen(v[b.op[i.value].sym], w[b.op[i.value].sym]);
    }
    hide Held, Proceeds, Closed;
  }

  /** Exits do not depend on the day's closes. */
  lemma {:induction false} SameExits(v: View, w: View, b: Book, pe: seq<nat>, k: nat)
    requires SameOpens(v, w) && Known(v, b.op)
    ensures FillExits(v, b, pe, k) == FillExits(w, b, pe, k)
  {
    hide FillExit;
    if pe != [] {
      SameExits(v, w, b, pe[..|pe| - 1], k);
      SameExit(v, w, FillExits(v, b, pe[..|pe| - 1], k), pe[|pe| - 1], k);
    }
  }

  // ── The queue of entries ────────────────────────────────────────────────

  predicate Fillable(v: View, op: seq<Position>, sym: nat)
    requires sym < |v|
  {
    Held(op, sym).None? && v[sym].Some? && v[sym].value.open.Some? && v[sym].value.open.value > 0.0
  }

  /** The first pending entry that is not skipped. */
  function FirstFillable(v: View, op: seq<Position>, pen: seq<nat>): (i: Option<nat>)
    requires AllKnown(v, pen)
    ensures i.Some? ==> i.value < |pen| && Fillable(v, op, pen[i.value])
  {
    if pen == [] then None
    else if Fillable(v, op, pen[0]) then Some(0)
    else
      match FirstFillable(v, op, pen[1..])
      case None => None
      case Some(i) => Some(i + 1)
  }

  lemma {:induction false} SameFirst(v: View, w: View, op: seq<Position>, pen: seq<nat>)
    requires SameOpens(v, w) && AllKnown(v, pen)
    ensures FirstFillable(v, op, pen) == FirstFillable(w, op, pen)
  {
    hide Held;
    if pen != [] {
      assert SameOpen(v[pen[0]], w[pen[0]]);
      SameFirst(v, w, op, pen[1..]);
    }
  }

  /** The amount an entry is to get, without volatility targeting. */
  function Bid(c: Params, equity: real, riskMult: real, f: Filling): real {
    Min(Times(Times(c.perFrac, equity), riskMult), Min(Times(c.expoCap, equity) - f.deployed, f.book.cash))
  }

  /** Entries start with the first that can be filled, or do nothing. */
  lemma {:induction false} EntriesStart(c: Params, v: View, f: Filling, pen: seq<nat>, equity: real, riskMult: real, k: nat)
    requires Known(v, f.book.op) && AllKnown(v, pen)
    requires c.volTarget ==> |f.book.op| >= MAX_POS || FirstFillable(v, f.book.op, pen).None?
    ensures var i := FirstFillable(v, f.book.op, pen);
      FillEntries(c, v, f, pen, equity, riskMult, k) ==
      if |f.book.op| >= MAX_POS || i.None? || Bid(c, equity, riskMult, f) < 0.01 then f
      else FillEntries(c, v, FillEntry(c, v, f, pen[i.value], equity, riskMult, k), pen[i.value + 1..], equity, riskMult, k)
    decreases |pen|
  {
    hide Held, Times, Min, RiskMult;
    if pen != [] && |f.book.op| < MAX_POS {
      if !Fillable(v, f.book.op, pen[0]) || Bid(c, equity, riskMult, f) < 0.01 {
        assert FillEntry(c, v, f, pen[0], equity, riskMult, k) == f;
        EntriesStart(c, v, f, pen[1..], equity, riskMult, k);
        var i := FirstFillable(v, f.book.op, pen[1..]);
        if i.Some? {
          assert pen[1..][i.value + 1..] == pen[i.value + 2..];
        }
      } else {
        assert pen[0 + 1..] == pen[1..];
      }
    }
  }

  lemma SameEntry(c: Params, v: View, w: View, f: Filling, sym: nat, equity: real, riskMult: real, k: nat)
    requires SameOpens(v, w) && Known(v, f.book.op) && sym < |v| && !c.volTarget
    ensures FillEntry(c, v, f, sym, equity, riskMult, k) == FillEntry(c, w, f, sym, equity, riskMult, k)
  {
    assert SameOpen(v[sym], w[sym]);
    hide Held, Times, Min, VolScale;
  }

  /** For the same equity, entries depend on the opens alone. */
  lemma {:induction false} SameEntries(c: Params, v: View, w: View, f: Filling, pen: seq<nat>, equity: real, riskMult: real, k: nat)
    requires SameOpens(v, w) && Known(v, f.book.op) && AllKnown(v, pen) && !c.volTarget
    ensures FillEntries(c, v, f, pen, equity, riskMult, k) == FillEntries(c, w, f, pen, equity, riskMult, k)
    decreases |pen|
  {
    hide FillEntry;
    if pen != [] && |f.book.op| < MAX_POS {
      SameEntry(c, v, w, f, pen[0], equity, riskMult, k);
      SameEntries(c, v, w, FillEntry(c, v, f, pen[0], equity, riskMult, k), pen[1..], equity, riskMult, k);
    }
  }

  /** Entries only add positions. */
  lemma {:induction false} EntriesAppend(c: Params, v: View, f: Filling, pen: seq<nat>, equity: real, riskMult: real, k: nat)
    requires Known(v, f.book.op) && AllKnown(v, pen)
    ensures f.book.op <= FillEntries(c, v, f, pen, equity, riskMult, k).book.op
    decreases |pen|
  {
    if pen != [] && |f.book.op| < MAX_POS {
      var g := FillEntry(c, v, f, pen[0], equity, riskMult, k);
      assert f.book.op <= g.book.op;
      hide FillEntry;
      EntriesAppend(c, v, g, pen[1..], equity, riskMult, k);
    }
  }

  // ── The equity a morning can have ───────────────────────────────────────

  /** The held positions without a bar today, at the price they were bought for. */
  function Unquoted(v: View, op: seq<Position>): real
    requires Known(v, op)
  {
    if op == [] then 0.0
    else Unquoted(v, op[..|op| - 1]) + (if v[op[|op| - 1].sym].Some? then 0.0 else Times(op[|op| - 1].qty, op[|op| - 1].e))
  }

  /** The least equity the day's closes can leave. */
  function EquityKnown(v: View, b: Book): real
    requires Known(v, b.op)
  {
    b.cash + Unquoted(v, b.op)
  }

  predicate Quoted(v: View, op: seq<Position>)
    requires Known(v, op)
  {
    exists i :: 0 <= i < |op| && v[op[i].sym].Some?
  }

  lemma {:induction false} MarkedAbove(v: View, op: seq<Position>)
    requires Known(v, op)
    ensures Marked(v, op) >= Unquoted(v, op) >= 0.0
    ensures !Quoted(v, op) ==> Marked(v, op) == Unquoted(v, op)
  {
    hide Times;
    if op != [] {
      var front, p := op[..|op| - 1], op[|op| - 1];
      MarkedAbove(v, front);
      if Quoted(v, front) {
        var i :| 0 <= i < |front| && v[front[i].sym].Some?;
        assert v[op[i].sym].Some?;
      }
      TimesSign(p.qty, p.e);
      if CloseOr(v, p) > 0.0 {
        TimesSign(p.qty, CloseOr(v, p));
      }
      assert v[op[|op| - 1].sym].Some? ==> Quoted(v, op);
    }
  }

  lemma {:induction false} SameUnquoted(v: View, w: View, op: seq<Position>)
    requires SameOpens(v, w) && Known(v, op)
    ensures Unquoted(v, op) == Unquoted(w, op)
    ensures Quoted(v, op) ==> Quoted(w, op)
  {
    if op != [] {
      SameUnquoted(v, w, op[..|op| - 1]);
      assert SameOpen(v[op[|op| - 1].sym], w[op[|op| - 1].sym]);
    }
    if Quoted(v, op) {
      var i :| 0 <= i < |op| && v[op[i].sym].Some?;
      assert SameOpen(v[op[i].sym], w[op[i].sym]);
      assert w[op[i].sym].Some?;
    }
  }

  /** The same day with every close at zero but one. */
  function Repriced(v: View, sym: nat, x: real): (w: View)
    ensures |w| == |v|
    ensures forall a :: 0 <= a < |v| ==> w[a] == if v[a].Some? then Some(v[a].value.(close := if a == sym then x else 0.0)) else None
    ensures SameOpens(v, w)
  {
    seq(|v|, a requires 0 <= a < |v| => if v[a].Some? then Some(v[a].value.(close := if a == sym then x else 0.0)) else None)
  }

  function QtyOf(op: seq<Position>, sym: nat): (q: real)
    ensures q >= 0.0
    ensures q == 0.0 ==> forall i :: 0 <= i < |op| ==> op[i].sym != sym
  {
    if op == [] then 0.0 else QtyOf(op[..|op| - 1], sym) + (if op[|op| - 1].sym == sym then op[|op| - 1].qty else 0.0)
  }

  lemma TimesPlus(x: real, y: real, z: real)
    ensures Times(x + y, z) == Times(x, z) + Times(y, z) && Times(x, 0.0) == 0.0 && Times(0.0, z) == 0.0
  {}

  lemma {:induction false} MarkedRepriced(v: View, op: seq<Position>, sym: nat, x: real)
    requires Known(v, op) && sym < |v| && v[sym].Some? && x >= 0.0
    ensures Marked(Repriced(v, sym, x), op) == Unquoted(v, op) + Times(QtyOf(op, sym), x)
  {
    TimesPlus(0.0, 0.0, x);
    if op != [] {
      var front, p := op[..|op| - 1], op[|op| - 1];
      MarkedRepriced(v, front, sym, x);
      TimesPlus(QtyOf(front, sym), p.qty, x);
      hide Times;
    }
  }

  /** With a held position quoted, some closes leave any equity not below the known one. */
  lemma EquityReached(v: View, b: Book, equity: real) returns (w: View)
    requires Known(v, b.op) && Quoted(v, b.op) && equity >= EquityKnown(v, b)
    ensures SameOpens(v, w) && EquityNow(w, b) == equity
  {
    var i :| 0 <= i < |b.op| && v[b.op[i].sym].Some?;
    var sym := b.op[i].sym;
    var q := QtyOf(b.op, sym);
    assert q > 0.0;
    var x := (equity - EquityKnown(v, b)) / q;
    QuotientBack(equity - EquityKnown(v, b), q);
    w := Repriced(v, sym, x);
    hide Repriced, Times;
    MarkedRepriced(v, b.op, sym, x);
  }

  // ── The book after the fills ────────────────────────────────────────────

  /** A pending entry can be filled: a slot is free, the asset is not held and opens. */
  predicate CanFill(v: View, b: Book, pen: seq<nat>)
    requires AllKnown(v, pen)
  {
    |b.op| < MAX_POS && FirstFillable(v, b.op, pen).Some?
  }

  lemma EnteredIs(c: Params, v: View, b: Book, pen: seq<nat>, peak: Positive, k: nat)
    requires Known(v, b.op) && AllKnown(v, pen)
    requires c.volTarget ==> !CanFill(v, b, pen)
    ensures var size := SizeAt(c, b.cash, peak, EquityNow(v, b));
      && (!CanFill(v, b, pen) || size == 0.0 ==> Entered(c, v, b, pen, peak, k) == b)
      && (CanFill(v, b, pen) && size != 0.0 ==>
            && b.op < Entered(c, v, b, pen, peak, k).op
            && Entered(c, v, b, pen, peak, k).op[|b.op|].sz == size)
  {
    var equity := EquityNow(v, b);
    var riskMult := RiskMult(c, equity, PeakNow(v, peak, b));
    var f := Filling(b, equity - b.cash);
    EntriesStart(c, v, f, pen, equity, riskMult, k);
    assert riskMult == RiskAt(c, peak, equity);
    hide RiskAt, RiskMult, PeakNow, EquityNow, Times, Held, Known, AllKnown;
    if CanFill(v, b, pen) && SizeAt(c, b.cash, peak, equity) != 0.0 {
      var i := FirstFillable(v, b.op, pen).value;
      var g := FillEntry(c, v, f, pen[i], equity, riskMult, k);
      EntriesAppend(c, v, g, pen[i + 1..], equity, riskMult, k);
    }
  }

  /** After the first fill took all cash, no other entry is filled. */
  lemma AllInEnds(c: Params, v: View, b: Book, pen: seq<nat>, peak: Positive, k: nat)
    requires Known(v, b.op) && AllKnown(v, pen) && !c.volTarget && CanFill(v, b, pen) && b.cash >= 0.01
    requires SizeAt(c, b.cash, peak, EquityNow(v, b)) == b.cash
    ensures var sym := pen[FirstFillable(v, b.op, pen).value];
      Entered(c, v, b, pen, peak, k) == Spent(b, sym, v[sym].value.open.value, b.cash, k)
  {
    var equity := EquityNow(v, b);
    var riskMult := RiskMult(c, equity, PeakNow(v, peak, b));
    var f := Filling(b, equity - b.cash);
    EntriesStart(c, v, f, pen, equity, riskMult, k);
    assert riskMult == RiskAt(c, peak, equity);
    var i := FirstFillable(v, b.op, pen).value;
    var sym, open := pen[i], v[pen[i]].value.open.value;
    hide RiskAt, RiskMult, PeakNow, EquityNow, Held;
    var g := FillEntry(c, v, f, sym, equity, riskMult, k);
    assert Spend(c, v[sym].value, equity, riskMult, f) == b.cash;
    assert g == Filling(Spent(b, sym, open, b.cash, k), f.deployed + b.cash);
    AllInSpends(b, sym, open, k);
    hide Spent, FillEntry, FirstFillable, Times;
    if |g.book.op| < MAX_POS {
      EntriesStart(c, v, g, pen[i + 1..], equity, riskMult, k);
      assert Bid(c, equity, riskMult, g) < 0.01;
    }
  }

  /** The book after one position was bought for an amount. */
  function Spent(b: Book, sym: nat, open: Positive, amount: Positive, k: nat): Book {
    BuyPositive(open);
    var buy: Positive := Times(open, 1.0 + SLIP);
    QtyPositive(amount, buy);
    var p := Position(sym, buy, amount / buy, k, amount, k, buy);
    Book(b.cash - Cost(p), b.op + [p], b.trades)
  }

  lemma AllInSpends(b: Book, sym: nat, open: Positive, k: nat)
    requires b.cash > 0.0
    ensures Spent(b, sym, open, b.cash, k).cash < 0.0
  {
    BuyPositive(open);
    var buy: Positive := Times(open, 1.0 + SLIP);
    QtyPositive(b.cash, buy);
    assert b.cash / buy * buy == b.cash;
    assert Times(Times(b.cash / buy, buy), 1.0 + FEE_SIDE) == b.cash * 1.001;
  }

  /**
   The fills of a day depend on its closes: an entry can be filled, a held position is
   quoted, and the size sways. All of it is known at the open.
   */
  predicate LooksAhead(c: Params, v: View, b: Book, pen: seq<nat>, peak: Positive)
    requires Known(v, b.op) && AllKnown(v, pen)
  {
    CanFill(v, b, pen) && Quoted(v, b.op) && SizeSways(c, b.cash, peak, EquityKnown(v, b))
  }

  lemma SameCanFill(v: View, w: View, b: Book, pen: seq<nat>)
    requires SameOpens(v, w) && Known(v, b.op) && AllKnown(v, pen)
    ensures CanFill(v, b, pen) == CanFill(w, b, pen) && EquityKnown(v, b) == EquityKnown(w, b)
    ensures Quoted(v, b.op) == Quoted(w, b.op)
    ensures FirstFillable(v, b.op, pen) == FirstFillable(w, b.op, pen)
  {
    SameFirst(v, w, b.op, pen);
    SameUnquoted(v, w, b.op);
    SameUnquoted(w, v, b.op);
  }

  lemma EquityAbove(v: View, b: Book)
    requires Known(v, b.op)
    ensures b.cash <= EquityKnown(v, b) <= EquityNow(v, b)
    ensures !Quoted(v, b.op) ==> EquityNow(v, b) == EquityKnown(v, b)
  {
    MarkedAbove(v, b.op);
  }

  /** The same equity and the same opens give the same book. */
  lemma SameEquitySameBook(c: Params, v: View, w: View, b: Book, pen: seq<nat>, peak: Positive, k: nat)
    requires SameOpens(v, w) && Known(v, b.op) && AllKnown(v, pen) && !c.volTarget
    requires EquityNow(v, b) == EquityNow(w, b)
    ensures Entered(c, v, b, pen, peak, k) == Entered(c, w, b, pen, peak, k)
  {
    var equity := EquityNow(v, b);
    SameEntries(c, v, w, Filling(b, equity - b.cash), pen, equity, RiskMult(c, equity, PeakNow(v, peak, b)), k);
    hide FillEntries, RiskMult, EquityNow;
  }

  /** Any parameters, volatility targeting included: nothing to fill, nothing depends on the day. */
  lemma NothingToFill(c: Params, v: View, w: View, b: Book, pen: seq<nat>, peak: Positive, k: nat)
    requires SameOpens(v, w) && Known(v, b.op) && AllKnown(v, pen) && !CanFill(v, b, pen)
    ensures Entered(c, v, b, pen, peak, k) == b == Entered(c, w, b, pen, peak, k)
  {
    SameCanFill(v, w, b, pen);
    EnteredIs(c, v, b, pen, peak, k);
    EnteredIs(c, w, b, pen, peak, k);
  }

  /** If the fills do not look ahead, all days with the same opens give the same book. */
  lemma BlindOtherwise(c: Params, v: View, w: View, b: Book, pen: seq<nat>, peak: Positive, k: nat)
    requires SameOpens(v, w) && Known(v, b.op) && AllKnown(v, pen) && !c.volTarget && !LooksAhead(c, v, b, pen, peak)
    ensures Entered(c, v, b, pen, peak, k) == Entered(c, w, b, pen, peak, k)
  {
    SameCanFill(v, w, b, pen);
    EquityAbove(v, b);
    EquityAbove(w, b);
    hide EquityNow, EquityKnown, Entered, SizeAt, SizeSways, Quoted;
    if !CanFill(v, b, pen) {
      NothingToFill(c, v, w, b, pen, peak, k);
    } else if !Quoted(v, b.op) {
      SameEquitySameBook(c, v, w, b, pen, peak, k);
    } else {
      SteadyOtherwise(c, b.cash, peak, EquityKnown(v, b), EquityNow(v, b));
      SteadyOtherwise(c, b.cash, peak, EquityKnown(v, b), EquityNow(w, b));
      if SizeAt(c, b.cash, peak, EquityNow(v, b)) == 0.0 {
        EnteredIs(c, v, b, pen, peak, k);
        EnteredIs(c, w, b, pen, peak, k);
      } else {
        SizedIsEnough(c, b.cash, peak, EquityNow(v, b));
        AllInEnds(c, v, b, pen, peak, k);
        AllInEnds(c, w, b, pen, peak, k);
        var sym := pen[FirstFillable(v, b.op, pen).value];
        assert SameOpen(v[sym], w[sym]);
      }
    }
  }

  /** With one entry pending, the same size gives the same book. */
  lemma OneEntry(c: Params, v: View, w: View, b: Book, sym: nat, peak: Positive, k: nat)
    requires SameOpens(v, w) && Known(v, b.op) && sym < |v| && !c.volTarget
    requires SizeAt(c, b.cash, peak, EquityNow(v, b)) == SizeAt(c, b.cash, peak, EquityNow(w, b))
    ensures Entered(c, v, b, [sym], peak, k) == Entered(c, w, b, [sym], peak, k)
  {
    var pen := [sym];
    SameCanFill(v, w, b, pen);
    if !CanFill(v, b, pen) || SizeAt(c, b.cash, peak, EquityNow(v, b)) == 0.0 {
      EnteredIs(c, v, b, pen, peak, k);
      EnteredIs(c, w, b, pen, peak, k);
    } else {
      OneEntryIs(c, v, b, sym, peak, k);
      OneEntryIs(c, w, b, sym, peak, k);
      assert SameOpen(v[sym], w[sym]);
    }
  }

  lemma OneEntryIs(c: Params, v: View, b: Book, sym: nat, peak: Positive, k: nat)
    requires Known(v, b.op) && sym < |v| && !c.volTarget && CanFill(v, b, [sym])
    requires SizeAt(c, b.cash, peak, EquityNow(v, b)) > 0.0
    ensures v[sym].Some? && v[sym].value.open.Some? && v[sym].value.open.value > 0.0
    ensures Entered(c, v, b, [sym], peak, k) == Spent(b, sym, v[sym].value.open.value, SizeAt(c, b.cash, peak, EquityNow(v, b)), k)
  {
    var equity := EquityNow(v, b);
    var riskMult := RiskMult(c, equity, PeakNow(v, peak, b));
    var f := Filling(b, equity - b.cash);
    assert FirstFillable(v, b.op, [sym]) == Some(0) by { assert [sym][1..] == []; }
    EntriesStart(c, v, f, [sym], equity, riskMult, k);
    assert riskMult == RiskAt(c, peak, equity);
    assert [sym][1..] == [];
    hide RiskAt, RiskMult, PeakNow, EquityNow, Held, Times;
    assert FillEntries(c, v, FillEntry(c, v, f, sym, equity, riskMult, k), [], equity, riskMult, k) == FillEntry(c, v, f, sym, equity, riskMult, k);
  }

  lemma SizedIsEnough(c: Params, cash: real, peak: Positive, equity: real)
    requires SizeAt(c, cash, peak, equity) != 0.0
    ensures cash >= 0.01
  {}

  /** If they do, two days with the same opens give different books. */
  lemma LookingDiffers(c: Params, v: View, b: Book, pen: seq<nat>, peak: Positive, k: nat) returns (w: View)
    requires Known(v, b.op) && AllKnown(v, pen) && !c.volTarget && LooksAhead(c, v, b, pen, peak)
    ensures SameOpens(v, w) && Entered(c, v, b, pen, peak, k) != Entered(c, w, b, pen, peak, k)
  {
    var x, y := SwayingDiffers(c, b.cash, peak, EquityKnown(v, b));
    var wx := EquityReached(v, b, x);
    var wy := EquityReached(v, b, y);
    SameCanFill(v, wx, b, pen);
    SameCanFill(v, wy, b, pen);
    EnteredIs(c, wx, b, pen, peak, k);
    EnteredIs(c, wy, b, pen, peak, k);
    hide EquityNow, EquityKnown, Entered, SizeAt, SizeSways, Quoted, CanFill;
    w := if Entered(c, v, b, pen, peak, k) == Entered(c, wx, b, pen, peak, k) then wy else wx;
  }

  // ── Data sets ───────────────────────────────────────────────────────────

  /** The data agree before day k, and on day k in who trades and at which open. */
  ghost predicate OpensAgree(a: seq<seq<Bar>>, b: seq<seq<Bar>>, k: nat)
    requires k < |Days(a)|
  {
    var date := Days(a)[k];
    Agree(a, b, date - 1) && SameOpens(ViewOn(a, date), ViewOn(b, date))
  }

  function Today(assets: seq<seq<Bar>>, k: nat): View
    requires k < |Days(assets)|
  {
    ViewOn(assets, Days(assets)[k])
  }

  /** The book on the morning of day k, exits filled. */
  function Exited(c: Params, assets: seq<seq<Bar>>, k: nat): (b: Book)
    requires k < |Days(assets)|
    ensures Known(Today(assets, k), b.op)
  {
    var s := After(c, assets, k);
    FillExits(Today(assets, k), s.book, s.pe, k)
  }

  /** The book of day k after all its fills. */
  function Filled(c: Params, assets: seq<seq<Bar>>, k: nat): (b: Book)
    requires k < |Days(assets)|
  {
    var s := After(c, assets, k);
    Entered(c, Today(assets, k), Exited(c, assets, k), s.pen, s.peak, k)
  }

  predicate Looks(c: Params, assets: seq<seq<Bar>>, k: nat)
    requires k < |Days(assets)|
  {
    var s := After(c, assets, k);
    LooksAhead(c, Today(assets, k), Exited(c, assets, k), s.pen, s.peak)
  }

  lemma SameDatesToo(a: seq<seq<Bar>>, b: seq<seq<Bar>>, k: nat, d: int)
    requires k < |Days(a)| && OpensAgree(a, b, k) && d <= Days(a)[k]
    ensures d in Days(a) <==> d in Days(b)
  {
    if d < Days(a)[k] {
      SameDates(a, b, Days(a)[k] - 1, d);
    } else {
      var v, w := ViewOn(a, d), ViewOn(b, d);
      DaysAre(a, d);
      DaysAre(b, d);
      assert forall i :: 0 <= i < |a| ==> QuoteOn(a[i], d) == v[i] && QuoteOn(b[i], d) == w[i] && SameOpen(v[i], w[i]);
      hide QuoteOn, Days, Agree, ViewOn;
    }
  }

  lemma SameDayThere(a: seq<seq<Bar>>, b: seq<seq<Bar>>, k: nat)
    requires k < |Days(a)| && OpensAgree(a, b, k)
    ensures k < |Days(b)| && Days(b)[k] == Days(a)[k]
  {
    var date := Days(a)[k];
    DaysAre(a, 0);
    DaysAre(b, 0);
    hide Days, QuoteOn, OpensAgree;
    forall d | d <= date
      ensures d in Days(a) <==> d in Days(b)
    {
      SameDatesToo(a, b, k, d);
    }
    SamePlace(Days(a), Days(b), date, k);
  }

  lemma SameStateThere(c: Params, a: seq<seq<Bar>>, b: seq<seq<Bar>>, k: nat)
    requires k < |Days(a)| && Agree(a, b, Days(a)[k] - 1)
    ensures k <= |Days(b)| && After(c, a, k) == After(c, b, k)
  {
    hide *;
    DaysAre(a, 0);
    if k > 0 {
      EarlierDay(Days(a), k);
    }
    CausalByDay(c, a, b, Days(a)[k] - 1, k);
  }

  lemma EarlierDay(days: seq<int>, k: nat)
    requires Increasing(days) && 0 < k < |days|
    ensures days[k - 1] <= days[k] - 1
  {}

  /** Such data sets are in the same state before day k, and day k is the same date. */
  lemma SameMorning(c: Params, a: seq<seq<Bar>>, b: seq<seq<Bar>>, k: nat)
    requires k < |Days(a)| && OpensAgree(a, b, k)
    ensures k < |Days(b)| && Days(b)[k] == Days(a)[k] && After(c, a, k) == After(c, b, k)
  {
    SameDayThere(a, b, k);
    assert Agree(a, b, Days(a)[k] - 1);
    hide *;
    SameStateThere(c, a, b, k);
  }

  /** The same bars but for the closes of one date. */
  function Reclosed(bars: seq<Bar>, date: int, close: real): (t: seq<Bar>)
    ensures |t| == |bars|
  {
    match BarOn(DatesOf(bars), date)
    case None => bars
    case Some(j) => bars[j := bars[j].(close := close)]
  }

  lemma UntilUnique(bars: seq<Bar>, date: int, u: seq<Bar>)
    requires Sorted(bars) && u <= bars && (|u| < |bars| ==> bars[|u|].date > date) && (u != [] ==> u[|u| - 1].date <= date)
    ensures Until(bars, date) == u
  {
    var t := Until(bars, date);
    assert t == bars[..|t|] && u == bars[..|u|];
  }

  lemma ReclosedIs(bars: seq<Bar>, date: int, close: real)
    requires Sorted(bars)
    ensures Sorted(Reclosed(bars, date, close))
    ensures Until(Reclosed(bars, date, close), date - 1) == Until(bars, date - 1)
    ensures SameOpen(QuoteOn(bars, date), QuoteOn(Reclosed(bars, date, close), date))
    ensures QuoteOn(bars, date).Some? ==> QuoteOn(Reclosed(bars, date, close), date).value.close == close
  {
    var t := Reclosed(bars, date, close);
    hide Donchian, Sma200, Chandelier, AtrShare, Until, BarOn;
    assert DatesOf(t) == DatesOf(bars);
    var u := Until(bars, date - 1);
    var at := BarOn(DatesOf(bars), date);
    if at.Some? {
      assert |u| <= at.value by {
        if at.value < |u| {
          UntilIs(bars, date - 1, at.value);
        }
      }
      assert u == bars[..|u|] == t[..|u|];
      UntilUnique(t, date - 1, u);
    }
  }

  /** Data with the closes of a view on one date. */
  function WithCloses(a: seq<seq<Bar>>, date: int, w: View): (b: seq<seq<Bar>>)
    requires |w| == |a|
    ensures |b| == |a|
    ensures forall i :: 0 <= i < |a| ==> b[i] == Reclosed(a[i], date, if w[i].Some? then w[i].value.close else 0.0)
  {
    seq(|a|, i requires 0 <= i < |a| => Reclosed(a[i], date, if w[i].Some? then w[i].value.close else 0.0))
  }

  predicate SameClose(x: Option<Quote>, y: Option<Quote>) {
    x.Some? && y.Some? ==> x.value.close == y.value.close
  }

  predicate SameCloses(v: View, w: View) {
    SameOpens(v, w) && forall a :: 0 <= a < |v| ==> SameClose(v[a], w[a])
  }

  lemma {:induction false} SameMarks(v: View, w: View, op: seq<Position>)
    requires SameCloses(v, w) && Known(v, op)
    ensures Marked(v, op) == Marked(w, op)
  {
    if op != [] {
      var sym := op[|op| - 1].sym;
      assert SameOpen(v[sym], w[sym]) && SameClose(v[sym], w[sym]);
      SameMarks(v, w, op[..|op| - 1]);
    }
  }

  lemma RealizedAt(bars: seq<Bar>, date: int, x: Option<Quote>)
    requires Sorted(bars) && SameOpen(QuoteOn(bars, date), x)
    ensures var t := Reclosed(bars, date, if x.Some? then x.value.close else 0.0);
      && Sorted(t) && Until(t, date - 1) == Until(bars, date - 1)
      && SameOpen(QuoteOn(bars, date), QuoteOn(t, date)) && SameClose(x, QuoteOn(t, date))
  {
    hide Reclosed, QuoteOn, Until, Sorted;
    ReclosedIs(bars, date, if x.Some? then x.value.close else 0.0);
  }

  lemma SameOpensMeet(v: View, w: View, u: View)
    requires SameOpens(v, w) && SameOpens(v, u)
    ensures SameOpens(w, u)
  {
    forall a | 0 <= a < |v|
      ensures SameOpen(w[a], u[a])
    {
      assert SameOpen(v[a], w[a]) && SameOpen(v[a], u[a]);
    }
  }

  /** Data that agree before a date, open alike on it and have the closes of a view. */
  ghost predicate Realizes(a: seq<seq<Bar>>, b: seq<seq<Bar>>, date: int, w: View) {
    && |w| == |a| && Agree(a, b, date - 1)
    && (forall i :: 0 <= i < |a| ==> SameOpen(ViewOn(a, date)[i], ViewOn(b, date)[i]))
    && (forall i :: 0 <= i < |a| ==> SameClose(w[i], ViewOn(b, date)[i]))
  }

  lemma AllRealized(a: seq<seq<Bar>>, date: int, w: View)
    requires (forall i :: 0 <= i < |a| ==> Sorted(a[i])) && SameOpens(ViewOn(a, date), w)
    ensures Realizes(a, WithCloses(a, date, w), date, w)
  {
    var b := WithCloses(a, date, w);
    hide Reclosed, QuoteOn, Until, Sorted, SameOpen, SameClose;
    forall i | 0 <= i < |a|
      ensures Sorted(b[i]) && Until(a[i], date - 1) == Until(b[i], date - 1)
      ensures SameOpen(ViewOn(a, date)[i], ViewOn(b, date)[i]) && SameClose(w[i], ViewOn(b, date)[i])
    {
      assert SameOpen(ViewOn(a, date)[i], w[i]);
      RealizedAt(a[i], date, w[i]);
    }
  }

  lemma RealizedMeans(a: seq<seq<Bar>>, b: seq<seq<Bar>>, k: nat, w: View)
    requires k < |Days(a)| && Realizes(a, b, Days(a)[k], w) && SameOpens(ViewOn(a, Days(a)[k]), w)
    ensures OpensAgree(a, b, k) && SameCloses(w, ViewOn(b, Days(a)[k]))
  {
    var date := Days(a)[k];
    assert |b| == |a|;
    hide Days, ViewOn, SameOpen, SameClose, Agree;
    Meets(ViewOn(a, date), w, ViewOn(b, date));
    OpensAgreeIs(a, b, k);
  }

  /** Every view with the same opens comes, for all the engine uses of it, from such data. */
  lemma ViewRealized(a: seq<seq<Bar>>, k: nat, w: View) returns (b: seq<seq<Bar>>)
    requires k < |Days(a)| && (forall i :: 0 <= i < |a| ==> Sorted(a[i])) && SameOpens(Today(a, k), w)
    ensures OpensAgree(a, b, k) && SameCloses(w, ViewOn(b, Days(a)[k]))
  {
    assert Today(a, k) == ViewOn(a, Days(a)[k]);
    hide *;
    AllRealized(a, Days(a)[k], w);
    b := WithCloses(a, Days(a)[k], w);
    RealizedMeans(a, b, k, w);
  }

  lemma Meets(v: View, w: View, u: View)
    requires SameOpens(v, w) && |u| == |v|
    requires (forall i :: 0 <= i < |v| ==> SameOpen(v[i], u[i])) && (forall i :: 0 <= i < |v| ==> SameClose(w[i], u[i]))
    ensures SameOpens(v, u) && SameCloses(w, u)
  {
    hide SameOpen, SameClose;
    SameOpensMeet(v, w, u);
  }

  lemma OpensAgreeIs(a: seq<seq<Bar>>, b: seq<seq<Bar>>, k: nat)
    requires k < |Days(a)| && Agree(a, b, Days(a)[k] - 1) && SameOpens(ViewOn(a, Days(a)[k]), ViewOn(b, Days(a)[k]))
    ensures OpensAgree(a, b, k)
  {}

  /** The fills of day k come out the same. */
  ghost predicate FillsAgree(c: Params, a: seq<seq<Bar>>, b: seq<seq<Bar>>, k: nat)
    requires k < |Days(a)|
  {
    k < |Days(b)| && Filled(c, b, k) == Filled(c, a, k)
  }

  /** The fills of the other data set, told with this one's book. */
  lemma FilledThere(c: Params, a: seq<seq<Bar>>, b: seq<seq<Bar>>, k: nat)
    requires k < |Days(a)| && OpensAgree(a, b, k)
    ensures k < |Days(b)| && SameOpens(Today(a, k), ViewOn(b, Days(a)[k]))
    ensures AllKnown(Today(a, k), After(c, a, k).pen)
    ensures Filled(c, b, k) == Entered(c, ViewOn(b, Days(a)[k]), Exited(c, a, k), After(c, a, k).pen, After(c, a, k).peak, k)
  {
    SameMorning(c, a, b, k);
    var s := After(c, a, k);
    hide After, Days, Entered, QuoteOn, ViewOn;
    SameExits(Today(a, k), Today(b, k), s.book, s.pe, k);
  }

  /**
   Without volatility targeting, the fills of a day are fixed by the data before it
   and by its opens exactly when they do not look ahead.
   */
  lemma LookAheadIff(c: Params, a: seq<seq<Bar>>, k: nat)
    requires k < |Days(a)| && !c.volTarget && forall i :: 0 <= i < |a| ==> Sorted(a[i])
    ensures (forall b :: OpensAgree(a, b, k) ==> FillsAgree(c, a, b, k)) <==> !Looks(c, a, k)
  {
    hide OpensAgree, Days, Entered, LooksAhead, ViewOn, Sorted, After;
    var s, v, book := After(c, a, k), Today(a, k), Exited(c, a, k);
    if Looks(c, a, k) {
      var w := LookingDiffers(c, v, book, s.pen, s.peak, k);
      var b := ViewRealized(a, k, w);
      FilledThere(c, a, b, k);
      var u := ViewOn(b, Days(a)[k]);
      SameMarks(w, u, book.op);
      SameEquitySameBook(c, w, u, book, s.pen, s.peak, k);
      assert !FillsAgree(c, a, b, k);
    } else {
      forall b | OpensAgree(a, b, k)
        ensures FillsAgree(c, a, b, k)
      {
        FilledThere(c, a, b, k);
        BlindOtherwise(c, v, ViewOn(b, Days(a)[k]), book, s.pen, s.peak, k);
      }
    }
  }
}
