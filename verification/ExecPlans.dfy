/**
 What the execution worker makes of a claimed item, told by the columns it reads, and
 what one order may be.
 */
module ExecPlans {
  import opened Basics
  import opened ExecQueue
  import opened ExecService
  import opened ExecProgram

  // ── Usage and caps ──────────────────────────────────────────────────────

  /** A row counts for its bot and its day exactly while it may still be, or is, filled. */
  lemma UsageCounts(orders: seq<Order>, o: Order, bot: nat, day: nat)
    ensures Used(orders + [o], bot, day) == Used(orders, bot, day) +
      (if o.bot == bot && o.day == day && o.status in {PendingRow, SubmittedRow, PartiallyFilledRow, FilledRow} then o.notional else 0.0)
    ensures Used([], bot, day) == 0.0
  {
    assert (orders + [o])[..|orders|] == orders;
    StatusesApart(o.status);
  }

  lemma StatusesApart(status: RowStatus)
    ensures status in {PendingRow, SubmittedRow, PartiallyFilledRow, FilledRow} <==> status !in {RejectedRow, NoopRow, CancelledRow, FailedRow}
    ensures status in {PendingRow, SubmittedRow, PartiallyFilledRow} <==>
      status !in {FilledRow, RejectedRow, CancelledRow, FailedRow, NoopRow}
  {
    match status
    case PendingRow =>
    case SubmittedRow =>
    case PartiallyFilledRow =>
    case FilledRow =>
    case RejectedRow =>
    case CancelledRow =>
    case FailedRow =>
    case NoopRow =>
  }

  /** A position is open as long as its row has not ended. */
  lemma OpenCounts(orders: seq<Order>, o: Order, bot: nat)
    ensures OpenNow(orders + [o], bot) == OpenNow(orders, bot) +
      (if o.bot == bot && o.status !in {FilledRow, RejectedRow, CancelledRow, FailedRow, NoopRow} then 1 else 0)
    ensures OpenNow([], bot) == 0
  {
    assert (orders + [o])[..|orders|] == orders;
    StatusesApart(o.status);
  }

  /** A configuration with a number that is not positive. */
  predicate Malformed(p: Policy) {
    p.fixed <= 0.0 || p.maxOrder <= 0.0 || p.dailyCap <= 0.0 || p.maxPositions <= 0
  }

  /**
   An order is accepted exactly if it is the configured one and fits all caps with the
   usage of the day, negative usage counting as none; never resized. Otherwise the first
   cap it breaks is named.
   */
  lemma AcceptedIff(p: Policy, used: real, open: nat, notional: real)
    ensures Decide(p, used, open) == Accepted(notional) <==>
      notional == p.fixed && !Malformed(p) && notional <= p.maxOrder && notional <= p.dailyCap
      && used + notional <= p.dailyCap && open < p.maxPositions
    ensures Decide(p, used, open) == Refused(BadConfig) <==> Malformed(p)
    ensures Decide(p, used, open) == Refused(PerOrderCap) <==> !Malformed(p) && p.fixed > p.maxOrder
    ensures Decide(p, used, open) == Refused(DailyCap) <==>
      !Malformed(p) && p.fixed <= p.maxOrder && (used + p.fixed > p.dailyCap || p.fixed > p.dailyCap)
    ensures Decide(p, used, open) == Refused(MaxPositions) <==>
      !Malformed(p) && p.fixed <= p.maxOrder && used + p.fixed <= p.dailyCap && p.fixed <= p.dailyCap && open >= p.maxPositions
  {}

  // ── One item ────────────────────────────────────────────────────────────

  /** Every condition for sending, each read from its own column. */
  ghost predicate EverythingOpen(c: Config, s: State, bot: nat, o: Outside) {
    && o.gateReadable && o.wired
    && c.envArmed && s.gate.dbArmed && !s.gate.kill && c.testnet && c.environmentsAgree
    && bot in s.enabled
  }

  /** The usage of the day the clock shows, in seconds. */
  function UsedToday(s: State, bot: nat): real {
    Used(s.orders, bot, s.now / 86400)
  }

  /**
   An item whose signal and bot are there, and nothing raises: sent exactly if everything
   is open and the caps accept, with the notional they accept; a no-op exactly if
   something is closed; rejected exactly if everything is open and a cap refuses.
   */
  lemma ItemComesTo(c: Config, s: State, item: nat, o: Outside)
    requires item < |s.items| && s.items[item].signal in s.signals && s.signals[s.items[item].signal].bot in c.policies
    requires o.raises.None?
    ensures var plan := PlanFor(c, s, item, o);
      var bot := s.signals[s.items[item].signal].bot;
      var d := Decide(c.policies[bot], UsedToday(s, bot), OpenNow(s.orders, bot));
      && (plan.Noop? <==> !EverythingOpen(c, s, bot, o))
      && (plan.Reject? <==> EverythingOpen(c, s, bot, o) && d.Refused?)
      && (plan.Send? <==> EverythingOpen(c, s, bot, o) && d.Accepted?) && (plan.Send? ==> d == Accepted(plan.notional))
  {
    hide Used, OpenNow, Decide;
  }

  /** What raises before the order is decided fails the item, and so do missing rows; later stages do not change the plan. */
  lemma ItemFailsIf(c: Config, s: State, item: nat, o: Outside)
    ensures PlanFor(c, s, item, o).Fail? <==>
      || item >= |s.items| || s.items[item].signal !in s.signals || s.signals[s.items[item].signal].bot !in c.policies
      || o.raises == Some(AtLoad) || o.raises == Some(AtGate)
      || (EverythingOpen(c, s, s.signals[s.items[item].signal].bot, o)
          && (o.raises == Some(AtCaps)
              || (o.raises == Some(AtCredentials)
                  && Decide(c.policies[s.signals[s.items[item].signal].bot],
                            UsedToday(s, s.signals[s.items[item].signal].bot),
                            OpenNow(s.orders, s.signals[s.items[item].signal].bot)).Accepted?)))
  {
    hide Used, OpenNow, Decide;
  }

  // ── One call of the worker ──────────────────────────────────────────────

  /** The row is leased to the worker from now on. */
  function Leased(item: Item, w: nat, now: nat): Item {
    item.(status := Processing, lockedBy := Some(w), lockedAt := now)
  }

  /** One attempt more, no lease, and a new try after the delay if attempts are left. */
  ghost predicate TriedAgain(was: Item, item: Item, visibleAt: nat) {
    && item == was.(attempts := was.attempts + 1, status := item.status, visibleAt := visibleAt, lockedBy := None, lockedAt := item.lockedAt)
    && item.status == if was.attempts + 1 < was.maxAttempts then Queued else Dead
  }

  /** Of all items only this one is another. */
  ghost predicate OnlyItem(was: seq<Item>, items: seq<Item>, i: nat) {
    |items| == |was| && forall k :: 0 <= k < |was| && k != i ==> items[k] == was[k]
  }

  /** The row is added unless there is one with its key. */
  ghost predicate AddedOnce(was: seq<Order>, orders: seq<Order>, row: Order) {
    if exists k :: 0 <= k < |was| && was[k].cid == row.cid then orders == was else orders == was + [row]
  }

  /** The worker takes the first item that is queued and visible, or nothing is. */
  lemma TakesTheFirst(c: Config, before: State, after: State, w: nat, now: nat, o: Outside, item: Option<nat>, outcome: Outcome)
    requires Processed(c, before, after, w, now, o, item, outcome)
    ensures item.Some? ==>
      item.value < |before.items| && before.items[item.value].status == Queued && before.items[item.value].visibleAt <= now
    ensures forall k :: 0 <= k < |before.items| && (item.None? || k < item.value) ==>
      before.items[k].status != Queued || before.items[k].visibleAt > now
    ensures item.None? ==> after == before && outcome == IdleQueue
  {
    forall k | 0 <= k < |before.items| && (item.None? || k < item.value)
      ensures before.items[k].status != Queued || before.items[k].visibleAt > now
    {
      assert !Claimable(before.items[k], now);
    }
  }

  /** What has to hold for a failed attempt: nothing was recorded, and the item is tried again. */
  ghost predicate AttemptFailed(c: Config, before: State, after: State, i: nat, now: nat, outcome: Outcome) {
    && after.orders == before.orders && outcome == FailedItem && OnlyItem(before.items, after.items, i)
    && i < |before.items| == |after.items| && TriedAgain(before.items[i], after.items[i], now + c.retryDelay)
  }

  /** And for a finished one: a row of this status and notional under the signal's key, and the item is done. */
  ghost predicate AttemptEnded(before: State, after: State, i: nat, w: nat, status: RowStatus, notional: real) {
    && i < |before.items| == |after.items| && before.items[i].signal in before.signals
    && OnlyItem(before.items, after.items, i) && after.items[i] == Leased(before.items[i], w, before.now).(status := Done)
    && AddedOnce(before.orders, after.orders,
                 Order(Sig(before.items[i].signal), before.signals[before.items[i].signal].bot, status, notional, before.now / 86400))
  }

  ghost predicate HasRow(orders: seq<Order>, signal: nat) {
    exists k :: 0 <= k < |orders| && orders[k].cid == Sig(signal)
  }

  /**
   An item that is taken fails, as a plan or at the row or the adapter, and is tried again;
   or ends with exactly one row: a no-op or rejected one over the configured notional, or a
   filled one over the accepted notional. The adapter is called exactly for a plan to send.
   */
  lemma AttemptComesTo(c: Config, before: State, after: State, w: nat, i: nat, now: nat, o: Outside, outcome: Outcome)
    requires Processed(c, before, after, w, now, o, Some(i), outcome)
    ensures Can(c, before, TakeItem(w, i))
    ensures var plan, signal := PlanFor(c, Do(c, before, TakeItem(w, i)), i, o), before.items[i].signal;
      && (if plan.Fail? || o.raises == Some(AtWrite) || (plan.Send? && o.raises == Some(AtAdapter)) then
            AttemptFailed(c, before, after, i, now, outcome)
          else
            && signal in before.signals && before.signals[signal].bot in c.policies
            && var fixed := c.policies[before.signals[signal].bot].fixed;
               && (plan.Noop? ==> AttemptEnded(before, after, i, w, NoopRow, fixed))
               && (plan.Reject? ==> AttemptEnded(before, after, i, w, RejectedRow, fixed))
               && (plan.Send? ==> AttemptEnded(before, after, i, w, FilledRow, plan.notional))
               && outcome == (if o.raises == Some(AtAudit) then FailedItem
                              else if plan.Noop? then NoopDisarmed
                              else if plan.Reject? then RejectedByCaps
                              else if HasRow(before.orders, signal) then DuplicateItem else FilledItem))
      && |after.submissions| == |before.submissions| + (if plan.Send? then 1 else 0)
  {
    var held := Do(c, before, TakeItem(w, i));
    HeldIs(c, before, w, i);
    hide Do, Can, Used, OpenNow, Decide, Armed;
  }

  /** What taking an item does. */
  lemma HeldIs(c: Config, before: State, w: nat, i: nat)
    requires Can(c, before, TakeItem(w, i))
    ensures var held := Do(c, before, TakeItem(w, i));
      && i < |before.items| && held.items == before.items[i := Leased(before.items[i], w, before.now)]
      && held.orders == before.orders && held.submissions == before.submissions && held.signals == before.signals
      && held.now == before.now && held.enabled == before.enabled && held.gate == before.gate
  {}
}
