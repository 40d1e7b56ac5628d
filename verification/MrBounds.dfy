/**
 What the mean-reversion replay keeps, day after day: the position cap, queues that
 always fill without meeting it, money conserved to the cent and beyond, cash never
 below one entry fee, and no look-ahead.
 */
module MrBounds {
  import opened Basics
  import opened ReplayCalendar
  import opened MrReplay

  // ── Vocabulary ──────────────────────────────────────────────────────────

  ghost predicate Holds(open: seq<Position>, sym: nat) {
    exists i :: 0 <= i < |open| && open[i].sym == sym
  }

  ghost predicate Distinct(open: seq<Position>) {
    forall i, j :: 0 <= i < j < |open| ==> open[i].sym != open[j].sym
  }

  function OpenCost(open: seq<Position>, fee: real): real {
    if open == [] then 0.0 else OpenCost(open[..|open| - 1], fee) + Cost(open[|open| - 1], fee)
  }

  function Profit(trades: seq<Trade>): real {
    if trades == [] then 0.0 else Profit(trades[..|trades| - 1]) + trades[|trades| - 1].pnl
  }

  ghost predicate Conserved(c: Setup, b: Book) {
    b.cash + OpenCost(b.open, c.fee) == NAV0 + Profit(b.trades)
  }

  /** One entry fee on a full slice. */
  function Floor(c: Setup): real {
    0.0 - Times(SLICE, c.fee)
  }

  /** The exits queued are held; the entries queued are not, and fit beside what stays. */
  ghost predicate QueuesFit(s: Sim) {
    && Distinct(s.book.open)
    && (forall i :: 0 <= i < |s.exits| ==> Holds(s.book.open, s.exits[i]))
    && (forall i, j :: 0 <= i < j < |s.exits| ==> s.exits[i] != s.exits[j])
    && OrdersFresh(s.book.open, s.entries)
    && |s.book.open| - |s.exits| + |s.entries| <= MAX_POS
  }

  ghost predicate OrdersFresh(open: seq<Position>, entries: seq<Order>) {
    && (forall i :: 0 <= i < |entries| ==> !Holds(open, entries[i].sym))
    && (forall i, j :: 0 <= i < j < |entries| ==> entries[i].sym != entries[j].sym)
  }

  lemma HeldHolds(open: seq<Position>, sym: nat)
    ensures Held(open, sym).Some? <==> Holds(open, sym)
    ensures Held(open, sym).Some? ==> Held(open, sym).value < |open| && open[Held(open, sym).value].sym == sym
  {
    HeldIs(open, sym);
  }

  // ── Exits ───────────────────────────────────────────────────────────────

  lemma {:induction false} CostWithout(open: seq<Position>, i: nat, fee: real)
    requires i < |open|
    ensures OpenCost(open[..i] + open[i + 1..], fee) == OpenCost(open, fee) - Cost(open[i], fee)
  {
    hide Cost;
    if i == |open| - 1 {
      assert open[..i] + open[i + 1..] == open[..|open| - 1];
    } else {
      var front, last := open[..|open| - 1], open[|open| - 1];
      CostWithout(front, i, fee);
      var rest := open[..i] + open[i + 1..];
      assert rest[..|rest| - 1] == front[..i] + front[i + 1..];
      assert rest[|rest| - 1] == last;
    }
  }

  lemma ExitConserves(c: Setup, b: Book, sym: nat, k: nat)
    requires Usable(c) && BookFits(c, b) && k < |c.calendar| && Conserved(c, b)
    ensures Conserved(c, FillExit(c, b, sym, k))
  {
    HeldIs(b.open, sym);
    if Held(b.open, sym).Some? {
      var i := Held(b.open, sym).value;
      CostWithout(b.open, i, c.fee);
      var t := Closed(c, b.open[i], k);
      assert (b.trades + [t])[..|b.trades|] == b.trades;
      hide Held, Cost, Proceeds, SellPrice;
    }
  }

  lemma RemovedHolds(open: seq<Position>, i: nat, sym: nat)
    requires i < |open| && Distinct(open)
    ensures Holds(open[..i] + open[i + 1..], sym) <==> Holds(open, sym) && sym != open[i].sym
    ensures Distinct(open[..i] + open[i + 1..])
  {
    var rest := open[..i] + open[i + 1..];
    if j :| 0 <= j < |open| && open[j].sym == sym && sym != open[i].sym {
      assert rest[if j < i then j else j - 1].sym == sym;
    }
    if j :| 0 <= j < |rest| && rest[j].sym == sym {
      assert open[if j < i then j else j + 1].sym == sym;
    }
  }

  /** A held position leaves, with its proceeds; nothing else does. */
  lemma ExitFacts(c: Setup, b: Book, sym: nat, k: nat)
    requires Usable(c) && BookFits(c, b) && k < |c.calendar| && Distinct(b.open) && Holds(b.open, sym)
    ensures var b' := FillExit(c, b, sym, k);
      && |b'.open| == |b.open| - 1 && Distinct(b'.open)
      && (forall s: nat :: Holds(b'.open, s) <==> Holds(b.open, s) && s != sym)
      && (Conserved(c, b) ==> Conserved(c, b'))
  {
    HeldHolds(b.open, sym);
    var i := Held(b.open, sym).value;
    if Conserved(c, b) {
      ExitConserves(c, b, sym, k);
    }
    assert FillExit(c, b, sym, k).open == b.open[..i] + b.open[i + 1..];
    hide FillExit, Held, Conserved, Holds, Distinct;
    RemovedHolds(b.open, i, sym);
    forall s: nat {
      RemovedHolds(b.open, i, s);
    }
  }

  lemma {:induction false} ExitsFacts(c: Setup, b: Book, exits: seq<nat>, k: nat)
    requires Usable(c) && BookFits(c, b) && k < |c.calendar| && Distinct(b.open)
    requires forall i :: 0 <= i < |exits| ==> Holds(b.open, exits[i])
    requires forall i, j :: 0 <= i < j < |exits| ==> exits[i] != exits[j]
    ensures var b' := FillExits(c, b, exits, k);
      && |b'.open| == |b.open| - |exits| && Distinct(b'.open)
      && (forall s: nat :: Holds(b'.open, s) <==> Holds(b.open, s) && s !in exits)
      && (Conserved(c, b) ==> Conserved(c, b'))
  {
    if exits != [] {
      var front, last := exits[..|exits| - 1], exits[|exits| - 1];
      ExitsFacts(c, b, front, k);
      assert last !in front;
      assert exits == front + [last];
      hide Holds, Distinct, Conserved, FillExit;
      ExitFacts(c, FillExits(c, b, front, k), last, k);
    }
  }

  lemma ExitPays(c: Setup, b: Book, sym: nat, k: nat)
    requires Usable(c) && BookFits(c, b) && ClosesPositive(c) && k < |c.calendar|
    ensures FillExit(c, b, sym, k).cash >= b.cash
  {
    HeldIs(b.open, sym);
    if Held(b.open, sym).Some? {
      var p := b.open[Held(b.open, sym).value];
      var price := ExitPrice(c, p, k);
      assert price >= 0.0;
      TimesPositive(price, 1.0 - c.slip);
      TimesPositive(p.qty, SellPrice(c, p, k));
      TimesPositive(Times(p.qty, SellPrice(c, p, k)), 1.0 - c.fee);
      hide Times;
    }
  }

  lemma {:induction false} ExitsPay(c: Setup, b: Book, exits: seq<nat>, k: nat)
    requires Usable(c) && BookFits(c, b) && ClosesPositive(c) && k < |c.calendar|
    ensures FillExits(c, b, exits, k).cash >= b.cash
  {
    if exits != [] {
      ExitsPay(c, b, exits[..|exits| - 1], k);
      ExitPays(c, FillExits(c, b, exits[..|exits| - 1], k), exits[|exits| - 1], k);
      hide FillExit;
    }
  }

  // ── Entries ─────────────────────────────────────────────────────────────

  lemma BoughtFacts(c: Setup, b: Book, o: Order, k: nat, buy: Positive, spend: Positive)
    requires Usable(c) && Refers(c, o.sym, o.ei) && spend <= b.cash && spend <= SLICE
    ensures var b' := Bought(c, b, o, k, buy, spend);
      && (Conserved(c, b) ==> Conserved(c, b'))
      && b'.cash >= Floor(c)
  {
    var b' := Bought(c, b, o, k, buy, spend);
    var p := b'.open[|b.open|];
    QtyPositive(spend, buy);
    assert b'.open[..|b.open|] == b.open;
    assert Cost(p, c.fee) == Times(spend, 1.0 + c.fee);
    hide Cost;
    FeeAtMost(spend, c.fee);
  }

  lemma FeeAtMost(spend: real, fee: real)
    requires 0.0 <= spend <= SLICE && 0.0 <= fee
    ensures Times(spend, 1.0 + fee) <= spend + Times(SLICE, fee)
  {
    assert Times(spend, 1.0 + fee) == spend + Times(spend, fee);
    TimesPositive(SLICE - spend, fee);
    assert Times(SLICE - spend, fee) == Times(SLICE, fee) - Times(spend, fee);
  }

  lemma EntryFacts(c: Setup, b: Book, o: Order, k: nat)
    requires Usable(c) && BookFits(c, b) && Refers(c, o.sym, o.ei) && k < |c.calendar| && Distinct(b.open)
    ensures var b' := FillEntry(c, b, o, k);
      && |b'.open| <= |b.open| + 1 && Distinct(b'.open)
      && (forall s: nat :: Holds(b'.open, s) ==> Holds(b.open, s) || s == o.sym)
      && (Conserved(c, b) ==> Conserved(c, b'))
      && (b.cash >= Floor(c) ==> b'.cash >= Floor(c))
  {
    HeldHolds(b.open, o.sym);
    var b' := FillEntry(c, b, o, k);
    if b' != b {
      var j := BarAt(c, o.sym, k).value;
      var buy := Times(c.assets[o.sym].open[j].value, 1.0 + c.slip);
      var spend := if SLICE > b.cash then b.cash else SLICE;
      TimesPositive(c.assets[o.sym].open[j].value, 1.0 + c.slip);
      BoughtFacts(c, b, o, k, buy, spend);
      assert b' == Bought(c, b, o, k, buy, spend);
      hide Times, Held, BarAt;
    }
  }

  /** No queued entry finds the cap reached, or its asset already held. */
  ghost predicate Unhindered(c: Setup, b: Book, entries: seq<Order>, k: nat)
    requires Usable(c) && BookFits(c, b) && OrdersFit(c, entries) && k < |c.calendar|
    decreases |entries|
  {
    entries == [] || (|b.open| < MAX_POS && !Holds(b.open, entries[0].sym) && Unhindered(c, FillEntry(c, b, entries[0], k), entries[1..], k))
  }

  lemma {:induction false} EntriesFacts(c: Setup, b: Book, entries: seq<Order>, k: nat)
    requires Usable(c) && BookFits(c, b) && OrdersFit(c, entries) && k < |c.calendar|
    requires Distinct(b.open) && OrdersFresh(b.open, entries) && |b.open| + |entries| <= MAX_POS
    ensures var b' := FillEntries(c, b, entries, k);
      && |b'.open| <= MAX_POS && Distinct(b'.open)
      && (Conserved(c, b) ==> Conserved(c, b'))
      && (b.cash >= Floor(c) ==> b'.cash >= Floor(c))
    ensures Unhindered(c, b, entries, k)
    decreases |entries|
  {
    if entries != [] {
      EntryFacts(c, b, entries[0], k);
      hide Holds, Distinct, Conserved, FillEntry;
      EntriesFacts(c, FillEntry(c, b, entries[0], k), entries[1..], k);
    }
  }

  // ── Signals ─────────────────────────────────────────────────────────────

  lemma {:induction false} ExitSignalsAre(c: Setup, open: seq<Position>, k: nat)
    requires Usable(c) && k < |c.calendar| && Distinct(open) && forall i :: 0 <= i < |open| ==> Refers(c, open[i].sym, open[i].ei)
    ensures forall i :: 0 <= i < |ExitSignals(c, open, k)| ==> Holds(open, ExitSignals(c, open, k)[i])
    ensures forall i, j :: 0 <= i < j < |ExitSignals(c, open, k)| ==> ExitSignals(c, open, k)[i] != ExitSignals(c, open, k)[j]
    ensures |ExitSignals(c, open, k)| <= |open|
  {
    if open != [] {
      var front, last := open[..|open| - 1], open[|open| - 1];
      ExitSignalsAre(c, front, k);
      hide Leaves;
      assert !Holds(front, last.sym);
      var exits, before := ExitSignals(c, open, k), ExitSignals(c, front, k);
      forall i | 0 <= i < |exits|
        ensures Holds(open, exits[i])
      {
        if i < |before| {
          var j :| 0 <= j < |front| && front[j].sym == before[i];
          assert open[j].sym == exits[i];
        } else {
          assert open[|open| - 1].sym == exits[i];
        }
      }
    }
  }

  lemma {:induction false} CandidatesAre(c: Setup, open: seq<Position>, k: nat, n: nat)
    requires Usable(c) && n <= |c.assets| && k < |c.calendar|
    ensures forall i :: 0 <= i < |Candidates(c, open, k, n)| ==> var o := Candidates(c, open, k, n)[i];
      o.sym < n && Enters(c, open, o.sym, k) && BarAt(c, o.sym, k) == Some(o.ei)
  {
    if n > 0 {
      CandidatesAre(c, open, k, n - 1);
    }
  }

  lemma ChosenAre(c: Setup, open: seq<Position>, exits: seq<nat>, k: nat)
    requires Usable(c) && k < |c.calendar| && |exits| <= |open| <= MAX_POS
    ensures OrdersFresh(open, Chosen(c, open, exits, k))
    ensures |Chosen(c, open, exits, k)| <= MAX_POS - (|open| - |exits|)
    ensures forall o :: o in Chosen(c, open, exits, k) ==> o.sym < |c.assets| && Enters(c, open, o.sym, k) && BarAt(c, o.sym, k) == Some(o.ei)
  {
    var all := Candidates(c, open, k, |c.assets|);
    CandidatesAre(c, open, k, |c.assets|);
    ChosenAreBest(c, open, exits, k);
    var chosen := Chosen(c, open, exits, k);
    assert forall o :: o in all ==> o.sym < |c.assets| && Enters(c, open, o.sym, k) && BarAt(c, o.sym, k) == Some(o.ei);
    hide Candidates;
    forall i | 0 <= i < |chosen|
      ensures !Holds(open, chosen[i].sym)
    {
      assert chosen[i] in chosen;
      HeldHolds(open, chosen[i].sym);
    }
  }

  // ── Days ────────────────────────────────────────────────────────────────

  ghost predicate Sound(c: Setup, s: Sim) {
    && SimFits(c, s) && QueuesFit(s) && |s.book.open| <= MAX_POS
    && Conserved(c, s.book)
    && (ClosesPositive(c) ==> s.book.cash >= Floor(c))
  }

  /** A day keeps all of it, and its queued entries are unhindered. */
  lemma DayKeeps(c: Setup, s: Sim, k: nat)
    requires Usable(c) && k < |c.calendar| && Sound(c, s)
    ensures Sound(c, Day(c, s, k))
    ensures Unhindered(c, FillExits(c, s.book, s.exits, k), s.entries, k)
  {
    var afterExits := FillExits(c, s.book, s.exits, k);
    ExitsFacts(c, s.book, s.exits, k);
    if ClosesPositive(c) {
      ExitsPay(c, s.book, s.exits, k);
    }
    EntriesFacts(c, afterExits, s.entries, k);
    var b := FillEntries(c, afterExits, s.entries, k);
    ExitSignalsAre(c, b.open, k);
    ChosenAre(c, b.open, ExitSignals(c, b.open, k), k);
    hide FillExits, FillEntries, ExitSignals, Chosen, Conserved, Holds, Distinct, Unhindered, Marked;
  }

  lemma StartSound(c: Setup)
    requires Usable(c)
    ensures Sound(c, START)
  {
    TimesPositive(SLICE, c.fee);
    hide Times;
  }

  lemma {:induction false} AlwaysSound(c: Setup, n: nat)
    requires Usable(c) && n <= |c.calendar|
    ensures Sound(c, After(c, n))
  {
    hide Sound, Day;
    if n == 0 {
      StartSound(c);
    } else {
      AlwaysSound(c, n - 1);
      DayKeeps(c, After(c, n - 1), n - 1);
    }
  }

  /** Never more than MAX_POS positions; queued entries meet neither the cap nor a held asset. */
  lemma CapAndQueues(c: Setup, n: nat)
    requires Usable(c) && n < |c.calendar|
    ensures |After(c, n).book.open| <= MAX_POS && |After(c, n + 1).book.open| <= MAX_POS
    ensures Unhindered(c, FillExits(c, After(c, n).book, After(c, n).exits, n), After(c, n).entries, n)
  {
    AlwaysSound(c, n);
    AlwaysSound(c, n + 1);
    DayKeeps(c, After(c, n), n);
  }

  /** Cash and the open positions' cost make up the starting value and the closed profit. */
  lemma MoneyIsConserved(c: Setup, n: nat)
    requires Usable(c) && n <= |c.calendar|
    ensures After(c, n).book.cash + OpenCost(After(c, n).book.open, c.fee) == NAV0 + Profit(After(c, n).book.trades)
  {
    AlwaysSound(c, n);
  }

  /** With positive closes, cash is never below the fee on one full slice. */
  lemma CashHasAFloor(c: Setup, n: nat)
    requires Usable(c) && ClosesPositive(c) && n <= |c.calendar|
    ensures After(c, n).book.cash >= Floor(c)
  {
    AlwaysSound(c, n);
    hide Floor, QueuesFit, Conserved, After, Usable;
  }

  // ── No look-ahead ───────────────────────────────────────────────────────

  /** A signal seen on the close of day k. */
  ghost predicate Signalled(c: Setup, sym: nat, ei: nat, k: int)
    requires Usable(c)
  {
    && 0 <= k < |c.calendar| && sym < |c.assets|
    && BarAt(c, sym, k) == Some(ei) && ei >= c.warm && c.strat.entry(sym, ei)
  }

  /** What is queued was signalled on the last day seen; what is held was signalled the day before it was bought. */
  ghost predicate InOrder(c: Setup, s: Sim, n: nat)
    requires Usable(c)
  {
    && (forall o :: o in s.entries ==> Signalled(c, o.sym, o.ei, n - 1))
    && (forall p :: p in s.book.open ==> p.entered < n && Signalled(c, p.sym, p.ei, p.entered - 1))
    && (forall t :: t in s.book.trades ==> t.entered < t.exited < n)
  }

  lemma {:induction false} ExitsInOrder(c: Setup, b: Book, exits: seq<nat>, k: nat)
    requires Usable(c) && BookFits(c, b) && k < |c.calendar|
    ensures forall p :: p in FillExits(c, b, exits, k).open ==> p in b.open
    ensures forall t :: t in FillExits(c, b, exits, k).trades ==>
              t in b.trades || (t.exited == k && exists p :: p in b.open && p.entered == t.entered)
  {
    if exits != [] {
      var front, last := exits[..|exits| - 1], exits[|exits| - 1];
      ExitsInOrder(c, b, front, k);
      var before := FillExits(c, b, front, k);
      HeldIs(before.open, last);
      if Held(before.open, last).Some? {
        assert before.open[Held(before.open, last).value] in before.open;
      }
      hide Held, Proceeds, SellPrice, Cost;
    }
  }

  lemma {:induction false} EntriesInOrder(c: Setup, b: Book, entries: seq<Order>, k: nat)
    requires Usable(c) && BookFits(c, b) && OrdersFit(c, entries) && k < |c.calendar|
    ensures var b' := FillEntries(c, b, entries, k);
      && b'.trades == b.trades
      && forall p :: p in b'.open ==> p in b.open || (p.entered == k && Order(p.sym, p.ei) in entries)
    decreases |entries|
  {
    if entries != [] && |b.open| < MAX_POS {
      var next := FillEntry(c, b, entries[0], k);
      EntriesInOrder(c, next, entries[1..], k);
      assert forall p :: p in next.open ==> p in b.open || (p.entered == k && Order(p.sym, p.ei) == entries[0]);
      assert next.trades == b.trades;
      assert forall o :: o in entries[1..] ==> o in entries;
      assert entries[0] in entries;
      hide FillEntry;
    }
  }

  lemma BookInOrder(c: Setup, s: Sim, k: nat)
    requires Usable(c) && k < |c.calendar| && SimFits(c, s) && InOrder(c, s, k)
    ensures var b := FillEntries(c, FillExits(c, s.book, s.exits, k), s.entries, k);
      && (forall p :: p in b.open ==> p.entered < k + 1 && Signalled(c, p.sym, p.ei, p.entered - 1))
      && (forall t :: t in b.trades ==> t.entered < t.exited < k + 1)
  {
    ExitsInOrder(c, s.book, s.exits, k);
    EntriesInOrder(c, FillExits(c, s.book, s.exits, k), s.entries, k);
    hide FillExits, FillEntries, Signalled, OrdersFit, BookFits;
  }

  lemma ChosenSignalled(c: Setup, open: seq<Position>, exits: seq<nat>, k: nat)
    requires Usable(c) && k < |c.calendar| && |exits| <= |open| <= MAX_POS
    ensures forall o :: o in Chosen(c, open, exits, k) ==> Signalled(c, o.sym, o.ei, k)
  {
    ChosenAre(c, open, exits, k);
    hide Chosen;
  }

  lemma StartInOrder(c: Setup)
    requires Usable(c)
    ensures InOrder(c, START, 0)
  {}

  lemma DayInOrder(c: Setup, s: Sim, k: nat)
    requires Usable(c) && k < |c.calendar| && Sound(c, s) && InOrder(c, s, k)
    ensures InOrder(c, Day(c, s, k), k + 1)
  {
    DayKeeps(c, s, k);
    BookInOrder(c, s, k);
    var b := Day(c, s, k).book;
    ExitSignalsAre(c, b.open, k);
    ChosenSignalled(c, b.open, ExitSignals(c, b.open, k), k);
    hide FillExits, FillEntries, ExitSignals, Signalled, Chosen, Sound, Usable, Distinct, Marked;
  }

  /** Every position was signalled on the close of the day before its fill, and is held overnight at least. */
  lemma {:induction false} NoLookAhead(c: Setup, n: nat)
    requires Usable(c) && n <= |c.calendar|
    ensures InOrder(c, After(c, n), n)
  {
    hide InOrder, Day, Sound, Usable;
    if n == 0 {
      StartInOrder(c);
    } else {
      NoLookAhead(c, n - 1);
      AlwaysSound(c, n - 1);
      DayInOrder(c, After(c, n - 1), n - 1);
    }
  }
}
