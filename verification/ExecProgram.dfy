/**
 The execution service's worker and its kill switch as programs: one item worked
 off, the bounded loop over items, and the switch's two acts. Each method keeps a
 record of the steps it takes in the step system, so the results about runs hold
 after any sequence of these programs.
 */
module ExecProgram {
  import opened Basics
  import opened ExecQueue
  import opened ExecService

  /** The statement at which something raises, if any does. */
  datatype Stage = AtLoad | AtGate | AtWrite | AtCaps | AtCredentials | AtAdapter | AtAudit

  /** What one item's processing meets from outside. */
  datatype Outside = Outside(raises: Option<Stage>, gateReadable: bool, wired: bool)

  datatype Outcome = IdleQueue | FailedItem | NoopDisarmed | RejectedByCaps | FilledItem | DuplicateItem

  predicate RaisesAt(o: Outside, at: Stage) {
    o.raises == Some(at)
  }

  // ── What an item comes to ───────────────────────────────────────────────

  /** Where the checks send an item. */
  datatype Plan = Fail | Noop | Reject | Send(notional: real)

  function PlanFor(c: Config, s: State, item: nat, o: Outside): Plan {
    match ContextOf(c, s, item)
    case None => Fail
    case Some(ctx) =>
      if RaisesAt(o, AtLoad) || RaisesAt(o, AtGate) then Fail
      else if !(o.gateReadable && Armed(c, s.gate) && ctx.enabled && o.wired) then Noop
      else PlanPastGate(c, s, ctx, o)
  }

  function PlanPastGate(c: Config, s: State, ctx: Context, o: Outside): Plan {
    if RaisesAt(o, AtCaps) then Fail
    else match CapsOf(c, s, ctx)
      case Refused(_) => Reject
      case Accepted(notional) => if RaisesAt(o, AtCredentials) then Fail else Send(notional)
  }

  /** The item failed before an order row for its signal was there. */
  predicate Fails(plan: Plan, o: Outside) {
    plan.Fail? || RaisesAt(o, AtWrite) || (plan.Send? && RaisesAt(o, AtAdapter))
  }

  /** What the worker reports; isNew: the signal had no order row before. */
  function OutcomeOf(plan: Plan, o: Outside, isNew: bool): Outcome {
    if Fails(plan, o) || RaisesAt(o, AtAudit) then FailedItem
    else match plan
      case Noop => NoopDisarmed
      case Reject => RejectedByCaps
      case _ => if isNew then FilledItem else DuplicateItem
  }

  function RowFor(c: Config, s: State, ctx: Context, plan: Plan): Order {
    Order(Sig(ctx.signal), ctx.bot,
          match plan case Noop => NoopRow case Reject => RejectedRow case _ => FilledRow,
          if plan.Send? then plan.notional else FixedOf(c, ctx.bot),
          Today(s))
  }

  /** The tables and the report after an item with this plan, claimed in the first state. */
  ghost predicate Outcomes(c: Config, before: State, after: State, plan: Plan, ctx: Context, w: nat, item: nat,
                           now: nat, o: Outside, outcome: Outcome) {
    && after.orders == (if Fails(plan, o) then before.orders else Insert(before.orders, RowFor(c, before, ctx, plan)))
    && after.items == (if Fails(plan, o) then Nack(before.items, item, w, now + c.retryDelay) else Ack(before.items, item, w))
    && |after.submissions| == |before.submissions| + One(plan.Send?)
    && outcome == OutcomeOf(plan, o, !HasOrder(before.orders, Sig(ctx.signal)))
  }

  /** The same for an item whose rows may be missing. */
  ghost predicate WorkedOff(c: Config, before: State, after: State, w: nat, item: nat, now: nat, o: Outside, outcome: Outcome) {
    match ContextOf(c, before, item)
    case Some(ctx) => Outcomes(c, before, after, PlanFor(c, before, item, o), ctx, w, item, now, o, outcome)
    case None =>
      && after.orders == before.orders && after.items == Nack(before.items, item, w, now + c.retryDelay)
      && after.submissions == before.submissions && outcome == FailedItem
  }

  /** One call of the worker: idle with nothing claimable, or the oldest claimable item claimed and worked off. */
  ghost predicate Processed(c: Config, before: State, after: State, w: nat, now: nat, o: Outside, item: Option<nat>, outcome: Outcome) {
    match item
    case None => after == before && outcome == IdleQueue && forall k :: 0 <= k < |before.items| ==> !Claimable(before.items[k], now)
    case Some(i) =>
      && i < |before.items| && Claimable(before.items[i], now) && (forall k :: 0 <= k < i ==> !Claimable(before.items[k], now))
      && Can(c, before, TakeItem(w, i))
      && WorkedOff(c, Do(c, before, TakeItem(w, i)), after, w, i, now, o, outcome)
  }

  class Service {
    const c: Config
    const queue: Queue
    var signals: map<nat, Signal>
    var enabled: set<nat>
    var gate: Gate
    var orders: seq<Order>
    /** The run of the step system this service has gone through. */
    ghost var run: Run

    constructor (c: Config, queue: Queue, ghost start: State)
      requires Init(start) && queue.items == [] && start.enabled == {} && start.gate == Gate(false, false)
      ensures this.c == c && this.queue == queue && Valid() && Model() == start
    {
      this.c, this.queue := c, queue;
      signals, enabled, gate, orders := map[], {}, Gate(false, false), [];
      run := Run([start], []);
    }

    // ── The record ────────────────────────────────────────────────────────

    ghost function Model(): State
      requires run.states != []
      reads this
    {
      run.states[|run.states| - 1]
    }

    ghost predicate Logged()
      reads this
    {
      run.states != [] && IsRun(c, run)
    }

    ghost predicate Mirrors(s: State)
      reads this, queue
    {
      queue.items == s.items && signals == s.signals && enabled == s.enabled && gate == s.gate && orders == s.orders
    }

    ghost predicate Valid()
      reads this, queue
    {
      Logged() && Mirrors(Model())
    }

    /** The tables are those of the last state of a run. */
    lemma TablesAreTheRuns()
      requires Valid()
      ensures run.states != [] && IsRun(c, run)
      ensures queue.items == Model().items && orders == Model().orders && signals == Model().signals
      ensures enabled == Model().enabled && gate == Model().gate
    {
      hide IsRun;
    }

    ghost predicate At(w: nat, p: Phase)
      requires run.states != []
      reads this
    {
      w < |Model().workers| && Model().workers[w] == p
    }

    /** The record only grew; the clock stood still. */
    twostate predicate Onward()
      reads this
    {
      old(run.states) != [] && old(run.states) <= run.states && Model().now == old(Model().now)
    }

    ghost method Take(t: Step)
      requires Logged() && Can(c, Model(), t)
      modifies this`run
      ensures Logged() && Model() == Do(c, old(Model()), t)
      ensures old(run.states) <= run.states
    {
      run := Run(run.states + [Do(c, Model(), t)], run.steps + [t]);
    }

    // ── One item ──────────────────────────────────────────────────────────

    method FindOrder(cid: ClientId) returns (found: bool)
      ensures found <==> HasOrder(orders, cid)
    {
      var i := 0;
      while i < |orders|
        invariant 0 <= i <= |orders|
        invariant forall k :: 0 <= k < i ==> orders[k].cid != cid
      {
        if orders[i].cid == cid {
          return true;
        }
        i := i + 1;
      }
      found := false;
    }

    /** Insert on conflict do nothing; false when the signal has its row already. */
    method WriteOrder(row: Order) returns (isNew: bool)
      modifies this`orders
      ensures orders == Insert(old(orders), row) && isNew == !HasOrder(old(orders), row.cid)
    {
      var found := FindOrder(row.cid);
      isNew := !found;
      if isNew {
        orders := orders + [row];
      }
    }

    /** Something raised: the failure is reported, and the lease given up if it is still held. */
    method Failed(w: nat, item: nat, now: nat)
      requires Valid() && At(w, Failing(item)) && Model().now == now
      modifies this`run, queue
      ensures Valid() && Onward() && At(w, Idle)
      ensures queue.items == Nack(old(queue.items), item, w, now + c.retryDelay)
      ensures Model().submissions == old(Model().submissions) && Model().orders == old(Model().orders)
    {
      hide IsRun;
      Take(NackItem(w));
      var status := queue.NackItem(item, w, c.retryDelay, now);
    }

    /** Something raises before the item is failed. */
    method GiveUp(w: nat, item: nat, now: nat)
      requires Valid() && Model().now == now && w < |Model().workers|
      requires var p := Model().workers[w]; !p.Idle? && !p.Failing? && p.item == item
      modifies this`run, queue
      ensures Valid() && Onward() && At(w, Idle)
      ensures queue.items == Nack(old(queue.items), item, w, now + c.retryDelay)
      ensures Model().submissions == old(Model().submissions) && Model().orders == old(Model().orders)
    {
      hide IsRun, Nack;
      Raises(w, item);
      hide Do, Can;
      Failed(w, item, now);
    }

    ghost method Raises(w: nat, item: nat)
      requires Valid() && w < |Model().workers|
      requires var p := Model().workers[w]; !p.Idle? && !p.Failing? && p.item == item
      modifies this`run
      ensures Valid() && Onward() && At(w, Failing(item))
      ensures Model().submissions == old(Model().submissions) && Model().orders == old(Model().orders)
    {
      hide IsRun;
      Take(Raise(w));
    }

    /** The row is there: acknowledge and write the audit row. */
    method Acknowledge(w: nat, item: nat, now: nat, o: Outside)
      requires Valid() && At(w, Recorded(item)) && Model().now == now
      modifies this`run, queue
      ensures Valid() && Onward() && At(w, Idle)
      ensures queue.items == Ack(old(queue.items), item, w)
      ensures Model().submissions == old(Model().submissions)
    {
      hide IsRun;
      var ok := AckTheItem(w, item);
      hide Do, Can;
      NackAfterAck(queue.items, old(queue.items), item, w, now + c.retryDelay);
      hide Ack, Nack;
      if RaisesAt(o, AtAudit) {
        GiveUp(w, item, now);
      } else {
        Finishes(w, item);
      }
    }

    method AckTheItem(w: nat, item: nat) returns (ok: bool)
      requires Valid() && At(w, Recorded(item))
      modifies this`run, queue
      ensures Valid() && Onward() && At(w, Closing(item)) && Model().submissions == old(Model().submissions)
      ensures queue.items == Ack(old(queue.items), item, w) && ok == Holds(old(queue.items), item, w)
    {
      hide IsRun;
      Take(AckItem(w));
      ok := queue.AckItem(item, w);
    }

    ghost method Finishes(w: nat, item: nat)
      requires Valid() && At(w, Closing(item))
      modifies this`run
      ensures Valid() && Onward() && At(w, Idle) && Model().submissions == old(Model().submissions)
    {
      hide IsRun;
      Take(Finish(w));
    }

    /** The order row, then the acknowledgement; or the failure of writing it. */
    method RecordOutcome(w: nat, item: nat, ghost ctx: Context, row: Order, now: nat, o: Outside) returns (isNew: bool)
      requires Valid() && Model().now == now && row.cid == Sig(ctx.signal)
      requires w < |Model().workers| && Writes(Model().workers[w], item, ctx, row, c, now)
      modifies this`run, this`orders, queue
      ensures Valid() && Onward() && At(w, Idle) && Model().submissions == old(Model().submissions)
      ensures isNew == !HasOrder(old(orders), row.cid)
      ensures orders == if RaisesAt(o, AtWrite) then old(orders) else Insert(old(orders), row)
      ensures queue.items == if RaisesAt(o, AtWrite) then Nack(old(queue.items), item, w, now + c.retryDelay) else Ack(old(queue.items), item, w)
    {
      if RaisesAt(o, AtWrite) {
        var found := FindOrder(row.cid);
        isNew := !found;
        GiveUp(w, item, now);
        return;
      }
      isNew := WriteOrder(row);
      TakeWrite(w, item, ctx, row, now);
      Acknowledge(w, item, now, o);
    }

    ghost method TakeWrite(w: nat, item: nat, ctx: Context, row: Order, now: nat)
      requires Logged() && Model().now == now && w < |Model().workers| && Writes(Model().workers[w], item, ctx, row, c, now)
      modifies this`run
      ensures Logged() && Onward() && At(w, Recorded(item))
      ensures Model() == old(Model()).(orders := Insert(old(Model().orders), row), workers := Model().workers)
    {
      match Model().workers[w] {
        case Blocked(_, _) => Take(WriteNoop(w));
        case Capped(_, _) => Take(WriteRejected(w));
        case Answered(_, _, _) => Take(WriteFilled(w));
      }
    }

    /** Dequeue the oldest claimable item and work it off. */
    method ProcessOne(w: nat, now: nat, o: Outside) returns (item: Option<nat>, outcome: Outcome)
      requires Valid() && At(w, Idle) && Model().now == now
      modifies this`run, this`orders, queue
      ensures Valid() && Onward() && At(w, Idle) && (item.None? <==> outcome.IdleQueue?)
      ensures Processed(c, old(Model()), Model(), w, now, o, item, outcome)
    {
      hide IsRun, WorkedOff;
      item := queue.Dequeue(w, now);
      if item.None? {
        return None, IdleQueue;
      }
      Take(TakeItem(w, item.value));
      outcome := WorkOff(w, item.value, now, o);
    }

    /** Past the gate: caps, adapter, row. */
    method SizeAndSend(w: nat, item: nat, ctx: Context, now: nat, o: Outside) returns (outcome: Outcome)
      requires Valid() && At(w, Open(item, ctx)) && Model().now == now
      modifies this`run, this`orders, queue
      ensures Valid() && Onward() && At(w, Idle) && !outcome.IdleQueue?
      ensures Outcomes(c, old(Model()), Model(), PlanPastGate(c, old(Model()), ctx, o), ctx, w, item, now, o, outcome)
    {
      hide IsRun, HasOrder, Used, OpenNow, Ack, Nack, Insert;
      var decision := PassCaps(w, item, ctx, now, o);
      if decision.None? {
        return FailedItem;
      }
      if decision.value.Refused? {
        var row := Order(Sig(ctx.signal), ctx.bot, RejectedRow, FixedOf(c, ctx.bot), now / DAY);
        var isNew := RecordOutcome(w, item, ctx, row, now, o);
        return if RaisesAt(o, AtWrite) || RaisesAt(o, AtAudit) then FailedItem else RejectedByCaps;
      }
      outcome := FailedItem;
      var sent := SubmitIntent(w, item, ctx, decision.value.notional, now, o);
      if sent {
        var row := Order(Sig(ctx.signal), ctx.bot, FilledRow, decision.value.notional, now / DAY);
        var isNew := RecordOutcome(w, item, ctx, row, now, o);
        outcome := if RaisesAt(o, AtWrite) || RaisesAt(o, AtAudit) then FailedItem else if isNew then FilledItem else DuplicateItem;
      }
    }

    /** A claimed item to its end. */
    method WorkOff(w: nat, item: nat, now: nat, o: Outside) returns (outcome: Outcome)
      requires Valid() && At(w, Claimed(item)) && Model().now == now
      modifies this`run, this`orders, queue
      ensures Valid() && Onward() && At(w, Idle) && !outcome.IdleQueue?
      ensures WorkedOff(c, old(Model()), Model(), w, item, now, o, outcome)
    {
      hide IsRun, HasOrder, Used, OpenNow, Armed, Ack, Nack, Insert;
      var ctx := LoadContext(w, item, now, o);
      if ctx.None? {
        return FailedItem;
      }
      var open := PassGate(w, item, ctx.value, now, o);
      if open.None? {
        return FailedItem;
      }
      if open.value {
        outcome := SizeAndSend(w, item, ctx.value, now, o);
      } else {
        var row := Order(Sig(ctx.value.signal), ctx.value.bot, NoopRow, FixedOf(c, ctx.value.bot), now / DAY);
        var isNew := RecordOutcome(w, item, ctx.value, row, now, o);
        outcome := if RaisesAt(o, AtWrite) || RaisesAt(o, AtAudit) then FailedItem else NoopDisarmed;
      }
    }

    /** The joined rows; missing ones, or an error, fail the item. */
    method LoadContext(w: nat, item: nat, now: nat, o: Outside) returns (ctx: Option<Context>)
      requires Valid() && At(w, Claimed(item)) && Model().now == now
      modifies this`run, queue
      ensures Valid() && Onward() && Model().submissions == old(Model().submissions) && Model().orders == old(Model().orders)
      ensures ctx == if RaisesAt(o, AtLoad) then None else ContextOf(c, old(Model()), item)
      ensures ctx.None? ==> At(w, Idle) && queue.items == Nack(old(queue.items), item, w, now + c.retryDelay)
      ensures ctx.Some? ==> At(w, Loaded(item, ctx.value)) && Model() == old(Model()).(workers := Model().workers)
    {
      if RaisesAt(o, AtLoad) {
        GiveUp(w, item, now);
        return None;
      }
      Take(Load(w));
      ctx := None;
      if item < |queue.items| && queue.items[item].signal in signals {
        var sig := signals[queue.items[item].signal];
        if sig.bot in c.policies {
          ctx := Some(Context(queue.items[item].signal, sig.bot, sig.buy, sig.bot in enabled));
        }
      }
      if ctx.None? {
        Failed(w, item, now);
      }
    }

    /** The master gate, the bot's own switch, and a wired adapter; None if reading raised. */
    method PassGate(w: nat, item: nat, ctx: Context, now: nat, o: Outside) returns (open: Option<bool>)
      requires Valid() && At(w, Loaded(item, ctx)) && Model().now == now
      modifies this`run, queue
      ensures Valid() && Onward() && Model().submissions == old(Model().submissions) && Model().orders == old(Model().orders)
      ensures open == if RaisesAt(o, AtGate) then None else Some(o.gateReadable && Armed(c, old(Model().gate)) && ctx.enabled && o.wired)
      ensures open.None? ==> At(w, Idle) && queue.items == Nack(old(queue.items), item, w, now + c.retryDelay)
      ensures open.Some? ==> At(w, if open.value then Open(item, ctx) else Blocked(item, ctx)) && Model() == old(Model()).(workers := Model().workers)
    {
      if RaisesAt(o, AtGate) {
        GiveUp(w, item, now);
        return None;
      }
      Take(ReadGate(w, o.gateReadable, o.wired));
      open := Some(o.gateReadable && Armed(c, gate) && ctx.enabled && o.wired);
    }

    /** The caps against today's usage; None if something raised before the adapter. */
    method PassCaps(w: nat, item: nat, ctx: Context, now: nat, o: Outside) returns (decision: Option<Decision>)
      requires Valid() && At(w, Open(item, ctx)) && Model().now == now
      modifies this`run, queue
      ensures Valid() && Onward() && Model().submissions == old(Model().submissions) && Model().orders == old(Model().orders)
      ensures var d := CapsOf(c, old(Model()), ctx);
        && decision == (if RaisesAt(o, AtCaps) || (d.Accepted? && RaisesAt(o, AtCredentials)) then None else Some(d))
      ensures decision.None? ==> At(w, Idle) && queue.items == Nack(old(queue.items), item, w, now + c.retryDelay)
      ensures decision.Some? ==> Model() == old(Model()).(workers := Model().workers)
      ensures decision.Some? ==> At(w, if decision.value.Accepted? then Sized(item, ctx, decision.value.notional) else Capped(item, ctx))
    {
      if RaisesAt(o, AtCaps) {
        GiveUp(w, item, now);
        return None;
      }
      Take(CheckCaps(w));
      var d := Refused(BadConfig);
      if ctx.bot in c.policies {
        d := Decide(c.policies[ctx.bot], Used(orders, ctx.bot, now / DAY), OpenNow(orders, ctx.bot));
      }
      if d.Accepted? && RaisesAt(o, AtCredentials) {
        GiveUp(w, item, now);
        return None;
      }
      decision := Some(d);
    }

    /** The adapter call; without an answer the item fails, although the order may be out. */
    method SubmitIntent(w: nat, item: nat, ctx: Context, notional: real, now: nat, o: Outside) returns (answered: bool)
      requires Valid() && At(w, Sized(item, ctx, notional)) && Model().now == now
      modifies this`run, queue
      ensures Valid() && Onward() && Model().orders == old(Model().orders)
      ensures answered == !RaisesAt(o, AtAdapter)
      ensures Model().submissions == old(Model().submissions) + [Submission(w, item, Sig(ctx.signal), ctx.bot, notional)]
      ensures answered ==> At(w, Answered(item, ctx, notional)) && queue.items == old(queue.items)
      ensures !answered ==> At(w, Idle) && queue.items == Nack(old(queue.items), item, w, now + c.retryDelay)
    {
      answered := !RaisesAt(o, AtAdapter);
      Take(Submit(w, answered));
      if !answered {
        Failed(w, item, now);
      }
    }

    /** The bounded loop: item after item until the queue is idle or the limit is reached. */
    method RunWorker(w: nat, now: nat, limit: int, o: seq<Outside>) returns (out: seq<Outcome>, items: seq<Option<nat>>, ghost trail: seq<State>)
      requires Valid() && At(w, Idle) && Model().now == now
      requires |o| >= (if limit < 1 then 1 else limit)
      modifies this`run, this`orders, queue
      ensures Valid() && Onward() && At(w, Idle)
      ensures 1 <= |out| <= (if limit < 1 then 1 else limit) && |items| == |out| && |trail| == |out| + 1
      ensures trail[0] == old(Model()) && trail[|out|] == Model()
      ensures forall i :: 0 <= i < |out| ==> Processed(c, trail[i], trail[i + 1], w, now, o[i], items[i], out[i])
      ensures forall i :: 0 <= i < |out| - 1 ==> !out[i].IdleQueue?
      ensures |out| < limit ==> out[|out| - 1].IdleQueue?
    {
      hide Processed;
      var n := if limit < 1 then 1 else limit;
      out, items, trail := [], [], [Model()];
      var i := 0;
      while i < n
        invariant 0 <= i <= n && |out| == |items| == i && |trail| == i + 1
        invariant Valid() && Onward() && At(w, Idle)
        invariant trail[0] == old(Model()) && trail[i] == Model()
        invariant forall k :: 0 <= k < i ==> Processed(c, trail[k], trail[k + 1], w, now, o[k], items[k], out[k])
        invariant forall k :: 0 <= k < i ==> !out[k].IdleQueue?
      {
        var item, outcome := ProcessOne(w, now, o[i]);
        out, items, trail := out + [outcome], items + [item], trail + [Model()];
        if outcome.IdleQueue? {
          return;
        }
        i := i + 1;
      }
    }

    // ── The switch ────────────────────────────────────────────────────────

    /** Kill switch on and every bot off in one transaction; then the queue is held, if that succeeds. */
    method EngageKillSwitch(holdFails: bool)
      requires Valid()
      modifies this`run, this`gate, this`enabled, queue
      ensures Valid() && Onward() && gate.kill && enabled == {} && !Armed(c, gate)
      ensures queue.items == if holdFails then old(queue.items) else Hold(old(queue.items))
    {
      gate, enabled := gate.(kill := true), {};
      Take(Engage);
      if !holdFails {
        var held := queue.HoldAll();
        Take(HoldItems);
      }
    }

    /** The switch off and the queue released; no bot is switched on and nothing is armed. */
    method ReleaseKillSwitch(now: nat, releaseFails: bool)
      requires Valid() && Model().now == now
      modifies this`run, this`gate, queue
      ensures Valid() && Onward() && gate == old(gate).(kill := false) && enabled == old(enabled)
      ensures queue.items == if releaseFails then old(queue.items) else Release(old(queue.items), now)
    {
      gate := gate.(kill := false);
      Take(Disengage);
      if !releaseFails {
        var released := queue.ReleaseHeld(now);
        Take(ReleaseItems);
      }
    }

    method SetExecutionArmed(on: bool)
      requires Valid()
      modifies this`run, this`gate
      ensures Valid() && Onward() && gate == old(gate).(dbArmed := on)
    {
      gate := gate.(dbArmed := on);
      Take(Arm(on));
    }

    method SweepLeases(now: nat) returns (swept: nat)
      requires Valid() && Model().now == now
      modifies this`run, queue
      ensures Valid() && Onward() && queue.items == Sweep(old(queue.items), now, c.stale)
    {
      swept := queue.SweepAll(now, c.stale);
      Take(SweepItems);
    }
  }

  /** A worker about to write this row. */
  predicate Writes(p: Phase, item: nat, ctx: Context, row: Order, c: Config, now: nat) {
    && row.cid == Sig(ctx.signal) && row.bot == ctx.bot && row.day == now / DAY
    && match p
       case Blocked(i, x) => i == item && x == ctx && row.status == NoopRow && row.notional == FixedOf(c, ctx.bot)
       case Capped(i, x) => i == item && x == ctx && row.status == RejectedRow && row.notional == FixedOf(c, ctx.bot)
       case Answered(i, x, notional) => i == item && x == ctx && row.status == FilledRow && row.notional == notional
       case _ => false
  }

  /** Reporting a failure after the acknowledgement changes nothing. */
  lemma NackAfterAck(after: seq<Item>, before: seq<Item>, item: nat, w: nat, visibleAt: nat)
    requires after == Ack(before, item, w)
    ensures Nack(after, item, w, visibleAt) == after
  {}
}
