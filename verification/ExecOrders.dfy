/**
 What every run of the execution service keeps about order rows: one per signal,
 written once, present before the queue item is done, and never filled without a
 submission behind it.
 */
module ExecOrders {
  import opened Basics
  import opened ExecQueue
  import opened ExecService
  import opened ExecClaims

  ghost predicate OneRowPerSignal(orders: seq<Order>) {
    forall i, j :: 0 <= i < j < |orders| ==> orders[i].cid != orders[j].cid
  }

  ghost predicate Finished(s: State, item: nat) {
    item < |s.items| && HasOrder(s.orders, Sig(s.items[item].signal))
  }

  /** Past the write of the order row, and in every done item, that row exists. */
  ghost predicate DoneIsRecorded(s: State) {
    && (forall w :: 0 <= w < |s.workers| && (s.workers[w].Recorded? || s.workers[w].Closing?) ==> Finished(s, s.workers[w].item))
    && (forall i :: 0 <= i < |s.items| && s.items[i].status == Done ==> Finished(s, i))
  }

  ghost predicate Backed(s: State, cid: ClientId, bot: nat, notional: real) {
    exists k :: 0 <= k < |s.submissions| && s.submissions[k].cid == cid && s.submissions[k].bot == bot && s.submissions[k].notional == notional
  }

  ghost predicate FilledAreBacked(s: State) {
    && (forall w :: 0 <= w < |s.workers| && s.workers[w].Answered? ==>
          Backed(s, Sig(s.workers[w].ctx.signal), s.workers[w].ctx.bot, s.workers[w].notional))
    && (forall i :: 0 <= i < |s.orders| && s.orders[i].status == FilledRow ==>
          Backed(s, s.orders[i].cid, s.orders[i].bot, s.orders[i].notional))
  }

  ghost predicate OnlyTerminalRows(s: State) {
    forall i :: 0 <= i < |s.orders| ==> s.orders[i].status in {FilledRow, RejectedRow, NoopRow}
  }

  /** No step rewrites a row: the table only grows at its end, by one row at most. */
  lemma RowsAppendOnly(c: Config, s: State, t: Step)
    requires Can(c, s, t)
    ensures s.orders <= Do(c, s, t).orders
    ensures t.WriteNoop? || t.WriteRejected? || t.WriteFilled? || Do(c, s, t).orders == s.orders
  {}

  lemma OneRowKept(c: Config, s: State, t: Step)
    requires Can(c, s, t) && OneRowPerSignal(s.orders)
    ensures OneRowPerSignal(Do(c, s, t).orders)
  {}

  lemma InsertHas(orders: seq<Order>, o: Order)
    ensures HasOrder(Insert(orders, o), o.cid)
    ensures forall cid :: HasOrder(orders, cid) ==> HasOrder(Insert(orders, o), cid)
  {
    if !HasOrder(orders, o.cid) {
      assert (orders + [o])[|orders|].cid == o.cid;
      forall cid | HasOrder(orders, cid)
        ensures HasOrder(orders + [o], cid)
      {
        var i :| 0 <= i < |orders| && orders[i].cid == cid;
        assert (orders + [o])[i].cid == cid;
      }
    }
  }

  lemma OrdersPersist(c: Config, s: State, t: Step, cid: ClientId)
    requires Can(c, s, t) && HasOrder(s.orders, cid)
    ensures HasOrder(Do(c, s, t).orders, cid)
  {
    RowsAppendOnly(c, s, t);
    hide Do;
    var i :| 0 <= i < |s.orders| && s.orders[i].cid == cid;
    assert Do(c, s, t).orders[i].cid == cid;
  }

  lemma FinishedPersists(c: Config, s: State, t: Step, item: nat)
    requires Can(c, s, t) && Finished(s, item)
    ensures Finished(Do(c, s, t), item)
  {
    TablesOnlyGrow(c, s, t);
    OrdersPersist(c, s, t, Sig(s.items[item].signal));
  }

  lemma RecordHas(c: Config, s: State, w: nat, status: RowStatus, notional: real)
    requires w < |s.workers| && (s.workers[w].Blocked? || s.workers[w].Capped? || s.workers[w].Answered?)
    ensures HasOrder(Record(c, s, w, status, notional).orders, Sig(s.workers[w].ctx.signal))
  {
    var ctx := s.workers[w].ctx;
    InsertHas(s.orders, Order(Sig(ctx.signal), ctx.bot, status, notional, Today(s)));
  }

  /** Reaching the acknowledgement means the row was just written or was there already. */
  lemma RecordedIsFinished(c: Config, s: State, t: Step, w: nat)
    requires Can(c, s, t) && Actor(t) == Some(w) && PhasesLinked(c, s) && DoneIsRecorded(s)
    requires Do(c, s, t).workers[w].Recorded? || Do(c, s, t).workers[w].Closing?
    ensures Finished(Do(c, s, t), Do(c, s, t).workers[w].item)
  {
    var p := s.workers[w];
    assert PhaseLinked(c, s, p);
    match t
    case AckItem(_) => FinishedPersists(c, s, t, p.item);
    case WriteNoop(_) => RecordHas(c, s, w, NoopRow, FixedOf(c, p.ctx.bot));
    case WriteRejected(_) => RecordHas(c, s, w, RejectedRow, FixedOf(c, p.ctx.bot));
    case WriteFilled(_) => RecordHas(c, s, w, FilledRow, p.notional);
    case _ =>
  }

  /** Only an acknowledgement by the lease holder makes an item done. */
  lemma DoneComesFromAck(c: Config, s: State, t: Step, i: nat)
    requires Can(c, s, t) && i < |Do(c, s, t).items| && Do(c, s, t).items[i].status == Done
    ensures i < |s.items|
    ensures s.items[i].status == Done || (t.AckItem? && s.workers[t.w].item == i && Holds(s.items, i, t.w))
  {}

  lemma DoneIsRecordedKept(c: Config, s: State, t: Step)
    requires Can(c, s, t) && PhasesLinked(c, s) && DoneIsRecorded(s)
    ensures DoneIsRecorded(Do(c, s, t))
  {
    var s' := Do(c, s, t);
    OnlyTheActorMoves(c, s, t);
    forall w | 0 <= w < |s'.workers| && (s'.workers[w].Recorded? || s'.workers[w].Closing?)
      ensures Finished(s', s'.workers[w].item)
    {
      if Actor(t) == Some(w) {
        RecordedIsFinished(c, s, t, w);
      } else {
        hide Do;
        FinishedPersists(c, s, t, s'.workers[w].item);
      }
    }
    forall i | 0 <= i < |s'.items| && s'.items[i].status == Done
      ensures Finished(s', i)
    {
      DoneComesFromAck(c, s, t, i);
      hide Do;
      FinishedPersists(c, s, t, i);
    }
  }

  lemma BackedPersists(c: Config, s: State, t: Step, cid: ClientId, bot: nat, notional: real)
    requires Can(c, s, t) && Backed(s, cid, bot, notional)
    ensures Backed(Do(c, s, t), cid, bot, notional)
  {
    OnlySubmitCalls(c, s, t);
    hide Do;
    var k :| 0 <= k < |s.submissions| && s.submissions[k].cid == cid && s.submissions[k].bot == bot && s.submissions[k].notional == notional;
    assert Do(c, s, t).submissions[k] == s.submissions[k];
  }

  lemma AnsweredIsBacked(c: Config, s: State, t: Step, w: nat)
    requires Can(c, s, t) && Actor(t) == Some(w) && Do(c, s, t).workers[w].Answered?
    ensures Backed(Do(c, s, t), Sig(Do(c, s, t).workers[w].ctx.signal), Do(c, s, t).workers[w].ctx.bot, Do(c, s, t).workers[w].notional)
  {
    var s' := Do(c, s, t);
    assert t.Submit?;
    assert s'.submissions[|s.submissions|] == CallOf(s.workers[w], w);
  }

  lemma NewRowIsTheActors(c: Config, s: State, t: Step, i: nat)
    requires Can(c, s, t) && |s.orders| <= i < |Do(c, s, t).orders|
    ensures i == |s.orders| && Actor(t).Some?
    ensures Do(c, s, t).orders[i].status in {FilledRow, RejectedRow, NoopRow}
    ensures Do(c, s, t).orders[i].status == FilledRow ==>
      var p := s.workers[Actor(t).value];
      p.Answered? && Do(c, s, t).orders[i] == Order(Sig(p.ctx.signal), p.ctx.bot, FilledRow, p.notional, Today(s))
  {}

  lemma FilledAreBackedKept(c: Config, s: State, t: Step)
    requires Can(c, s, t) && FilledAreBacked(s)
    ensures FilledAreBacked(Do(c, s, t))
  {
    var s' := Do(c, s, t);
    OnlyTheActorMoves(c, s, t);
    RowsAppendOnly(c, s, t);
    forall w | 0 <= w < |s'.workers| && s'.workers[w].Answered?
      ensures Backed(s', Sig(s'.workers[w].ctx.signal), s'.workers[w].ctx.bot, s'.workers[w].notional)
    {
      if Actor(t) == Some(w) {
        AnsweredIsBacked(c, s, t, w);
      } else {
        hide Do;
        BackedPersists(c, s, t, Sig(s'.workers[w].ctx.signal), s'.workers[w].ctx.bot, s'.workers[w].notional);
      }
    }
    forall i | 0 <= i < |s'.orders| && s'.orders[i].status == FilledRow
      ensures Backed(s', s'.orders[i].cid, s'.orders[i].bot, s'.orders[i].notional)
    {
      if i >= |s.orders| {
        NewRowIsTheActors(c, s, t, i);
      } else {
        assert s'.orders[i] == s.orders[i];
      }
      hide Do;
      BackedPersists(c, s, t, s'.orders[i].cid, s'.orders[i].bot, s'.orders[i].notional);
    }
  }

  lemma OnlyTerminalRowsKept(c: Config, s: State, t: Step)
    requires Can(c, s, t) && OnlyTerminalRows(s)
    ensures OnlyTerminalRows(Do(c, s, t))
  {
    RowsAppendOnly(c, s, t);
    forall i | 0 <= i < |Do(c, s, t).orders|
      ensures Do(c, s, t).orders[i].status in {FilledRow, RejectedRow, NoopRow}
    {
      if i >= |s.orders| {
        NewRowIsTheActors(c, s, t, i);
      }
    }
  }

  // ── Over whole runs ─────────────────────────────────────────────────────

  ghost predicate OrderInv(s: State) {
    OneRowPerSignal(s.orders) && DoneIsRecorded(s) && FilledAreBacked(s) && OnlyTerminalRows(s)
  }

  lemma {:induction false} OrderInvAlways(c: Config, r: Run, n: nat)
    requires IsRun(c, r) && n < |r.states|
    ensures OrderInv(r.states[n])
  {
    if n > 0 {
      var s, t := r.states[n - 1], r.steps[n - 1];
      OrderInvAlways(c, r, n - 1);
      ClaimInvAlways(c, r, n - 1);
      StepAt(c, r, n - 1);
      OneRowKept(c, s, t);
      DoneIsRecordedKept(c, s, t);
      FilledAreBackedKept(c, s, t);
      OnlyTerminalRowsKept(c, s, t);
    }
  }

  ghost predicate RowAt(s: State, cid: ClientId, k: nat) {
    k < |s.orders| && s.orders[k].cid == cid
  }

  /** A done item has exactly one order row. */
  lemma DoneMeansOneRow(c: Config, r: Run, n: nat, i: nat)
    requires IsRun(c, r) && n < |r.states| && i < |r.states[n].items| && r.states[n].items[i].status == Done
    ensures exists k :: RowAt(r.states[n], Sig(r.states[n].items[i].signal), k)
    ensures forall k, j :: RowAt(r.states[n], Sig(r.states[n].items[i].signal), k) && RowAt(r.states[n], Sig(r.states[n].items[i].signal), j) ==>
              k == j
  {
    OrderInvAlways(c, r, n);
    var s := r.states[n];
    assert Finished(s, i);
    var k :| 0 <= k < |s.orders| && s.orders[k].cid == Sig(s.items[i].signal);
    assert RowAt(s, Sig(s.items[i].signal), k);
  }

  /** Rows are never rewritten or removed, across sweeps, lost acknowledgements and re-claims. */
  lemma {:induction false} RowsNeverRewritten(c: Config, r: Run, m: nat, n: nat)
    requires Connected(c, r) && m <= n < |r.states|
    ensures r.states[m].orders <= r.states[n].orders
    decreases n - m
  {
    if m < n {
      StepAt(c, r, m);
      RowsAppendOnly(c, r.states[m], r.steps[m]);
      RowsNeverRewritten(c, r, m + 1, n);
    }
  }

  /** A filled row stands for a call the adapter really received, with the same key, bot and notional. */
  lemma FilledRowsWereSubmitted(c: Config, r: Run, n: nat, k: nat)
    requires IsRun(c, r) && n < |r.states| && k < |r.states[n].orders| && r.states[n].orders[k].status == FilledRow
    ensures Backed(r.states[n], r.states[n].orders[k].cid, r.states[n].orders[k].bot, r.states[n].orders[k].notional)
  {
    OrderInvAlways(c, r, n);
  }

  lemma {:induction false} TerminalRowsAreNotOpen(orders: seq<Order>, bot: nat)
    requires forall i :: 0 <= i < |orders| ==> orders[i].status in {FilledRow, RejectedRow, NoopRow}
    ensures OpenNow(orders, bot) == 0
  {
    if orders != [] {
      TerminalRowsAreNotOpen(orders[..|orders| - 1], bot);
    }
  }

  /** The worker writes only terminal rows, so the open-positions cap never refuses an order. */
  lemma PositionsCapNeverBinds(c: Config, r: Run, n: nat, ctx: Context)
    requires IsRun(c, r) && n < |r.states|
    ensures CapsOf(c, r.states[n], ctx) != Refused(MaxPositions)
  {
    OrderInvAlways(c, r, n);
    TerminalRowsAreNotOpen(r.states[n].orders, ctx.bot);
  }
}
