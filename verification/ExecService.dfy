/**
 The execution service as a system of atomic steps: ingress, queue, a fixed
 number of workers, the master gate and the kill switch. A worker can raise or
 crash between any two of its steps; every statement on the database is one
 step. Worker ids are positions in the table of workers, hence distinct.
 */
module ExecService {
  import opened Basics
  import opened ExecQueue

  // ── Sizing and caps ─────────────────────────────────────────────────────

  datatype Policy = Policy(fixed: real, maxOrder: real, dailyCap: real, maxPositions: int)

  /** What the schema's CHECK constraints demand of a bot's row. */
  predicate ValidPolicy(p: Policy) {
    p.fixed > 0.0 && p.maxOrder > 0.0 && p.dailyCap >= p.maxOrder >= p.fixed && p.maxPositions > 0
  }

  datatype Reason = BadConfig | PerOrderCap | DailyCap | MaxPositions

  datatype Decision = Accepted(notional: real) | Refused(reason: Reason)

  function Max(x: real, y: real): real {
    if x < y then y else x
  }

  function Decide(p: Policy, usedToday: real, openNow: int): Decision {
    if p.fixed <= 0.0 || p.maxOrder <= 0.0 || p.dailyCap <= 0.0 || p.maxPositions <= 0 then Refused(BadConfig)
    else if p.fixed > p.maxOrder then Refused(PerOrderCap)
    else if Max(0.0, usedToday) + p.fixed > p.dailyCap then Refused(DailyCap)
    else if openNow >= p.maxPositions then Refused(MaxPositions)
    else Accepted(p.fixed)
  }

  // ── Tables ──────────────────────────────────────────────────────────────

  datatype RowStatus =
    | PendingRow | SubmittedRow | PartiallyFilledRow | FilledRow
    | RejectedRow | CancelledRow | FailedRow | NoopRow

  /** The idempotency key: sig-<signal row id>. */
  datatype ClientId = Sig(signal: nat)

  datatype Order = Order(cid: ClientId, bot: nat, status: RowStatus, notional: real, day: nat)

  datatype Signal = Signal(bot: nat, buy: bool)

  /** The two columns of the singleton state row the gate reads. */
  datatype Gate = Gate(dbArmed: bool, kill: bool)

  /** What deploys fix: policies, the gate's environment half, lease length, retry delay. */
  datatype Config = Config(
    policies: map<nat, Policy>,
    envArmed: bool,
    testnet: bool,
    environmentsAgree: bool,
    stale: nat,
    retryDelay: nat
  )

  ghost predicate ValidConfig(c: Config) {
    forall b :: b in c.policies ==> ValidPolicy(c.policies[b])
  }

  predicate Armed(c: Config, g: Gate) {
    c.envArmed && g.dbArmed && !g.kill && c.testnet && c.environmentsAgree
  }

  /** The joined signal and bot row a worker loads for its item. */
  datatype Context = Context(signal: nat, bot: nat, buy: bool, enabled: bool)

  datatype Phase =
    | Idle
    | Claimed(item: nat)
    | Loaded(item: nat, ctx: Context)
    | Blocked(item: nat, ctx: Context)                    // gate closed: record a no-op
    | Open(item: nat, ctx: Context)                       // gate passed
    | Capped(item: nat, ctx: Context)                     // caps refused: record a rejection
    | Sized(item: nat, ctx: Context, notional: real)      // caps passed
    | Answered(item: nat, ctx: Context, notional: real)   // the adapter returned a fill
    | Recorded(item: nat)                                 // an order row for the signal exists
    | Closing(item: nat)                                  // acknowledged, audit still to write
    | Failing(item: nat)                                  // something raised

  datatype Submission = Submission(worker: nat, item: nat, cid: ClientId, bot: nat, notional: real)

  /** The database, the workers, and two histories: claims per item, calls of the adapter. */
  datatype State = State(
    now: nat,
    signals: map<nat, Signal>,
    items: seq<Item>,
    enabled: set<nat>,
    gate: Gate,
    orders: seq<Order>,
    workers: seq<Phase>,
    claims: seq<nat>,
    submissions: seq<Submission>
  )

  const DAY: nat := 86400

  function Today(s: State): nat {
    s.now / DAY
  }

  ghost predicate HasOrder(orders: seq<Order>, cid: ClientId) {
    exists i :: 0 <= i < |orders| && orders[i].cid == cid
  }

  /** Insert unless a row with this client order id exists. */
  ghost function Insert(orders: seq<Order>, o: Order): seq<Order> {
    if HasOrder(orders, o.cid) then orders else orders + [o]
  }

  predicate Counted(status: RowStatus) {
    status !in {RejectedRow, NoopRow, CancelledRow, FailedRow}
  }

  /** A row's share of a bot's usage on a day. */
  function Share(o: Order, bot: nat, day: nat): real {
    if o.bot == bot && o.day == day && Counted(o.status) then o.notional else 0.0
  }

  function Used(orders: seq<Order>, bot: nat, day: nat): real {
    if orders == [] then 0.0
    else Used(orders[..|orders| - 1], bot, day) + Share(orders[|orders| - 1], bot, day)
  }

  function OpenNow(orders: seq<Order>, bot: nat): nat {
    if orders == [] then 0
    else
      var o := orders[|orders| - 1];
      OpenNow(orders[..|orders| - 1], bot)
      + (if o.bot == bot && o.status in {PendingRow, SubmittedRow, PartiallyFilledRow} then 1 else 0)
  }

  // ── Steps ───────────────────────────────────────────────────────────────

  datatype Step =
    | Tick(to: nat)
    | Accept(signal: nat, bot: nat, buy: bool)     // ingress commits a signal row
    | Enqueue(signal: nat)
    | TakeItem(w: nat, item: nat)                  // dequeue's single statement
    | Load(w: nat)
    | ReadGate(w: nat, readable: bool, wired: bool)
    | WriteNoop(w: nat)
    | CheckCaps(w: nat)
    | WriteRejected(w: nat)
    | Submit(w: nat, answered: bool)
    | WriteFilled(w: nat)
    | AckItem(w: nat)
    | Finish(w: nat)
    | Raise(w: nat)
    | NackItem(w: nat)
    | Crash(w: nat)
    | SweepItems
    | HoldItems
    | ReleaseItems
    | Engage                                       // kill switch on, every bot off: one transaction
    | Disengage
    | Arm(on: bool)
    | EnableBot(bot: nat, on: bool)

  /** The worker a step belongs to, if any. */
  function Actor(t: Step): Option<nat> {
    match t
    case TakeItem(w, _) => Some(w)
    case Load(w) => Some(w)
    case ReadGate(w, _, _) => Some(w)
    case WriteNoop(w) => Some(w)
    case CheckCaps(w) => Some(w)
    case WriteRejected(w) => Some(w)
    case Submit(w, _) => Some(w)
    case WriteFilled(w) => Some(w)
    case AckItem(w) => Some(w)
    case Finish(w) => Some(w)
    case Raise(w) => Some(w)
    case NackItem(w) => Some(w)
    case Crash(w) => Some(w)
    case _ => None
  }

  ghost predicate Can(c: Config, s: State, t: Step) {
    && (Actor(t).Some? ==> Actor(t).value < |s.workers|)
    && match t
       case Tick(to) => to >= s.now
       case Accept(signal, bot, buy) => signal !in s.signals && bot in c.policies
       case Enqueue(signal) => signal in s.signals
       case TakeItem(w, item) => s.workers[w].Idle? && item < |s.items| && Claimable(s.items[item], s.now)
       case Load(w) => s.workers[w].Claimed?
       case ReadGate(w, _, _) => s.workers[w].Loaded?
       case WriteNoop(w) => s.workers[w].Blocked?
       case CheckCaps(w) => s.workers[w].Open?
       case WriteRejected(w) => s.workers[w].Capped?
       case Submit(w, _) => s.workers[w].Sized?
       case WriteFilled(w) => s.workers[w].Answered?
       case AckItem(w) => s.workers[w].Recorded?
       case Finish(w) => s.workers[w].Closing?
       case Raise(w) => !s.workers[w].Idle? && !s.workers[w].Failing?
       case NackItem(w) => s.workers[w].Failing?
       case Crash(w) => true
       case SweepItems => true
       case HoldItems => true
       case ReleaseItems => true
       case Engage => true
       case Disengage => true
       case Arm(_) => true
       case EnableBot(_, _) => true
  }

  function Move(s: State, w: nat, p: Phase): State
    requires w < |s.workers|
  {
    s.(workers := s.workers[w := p])
  }

  /** The context of an item, or None when its rows are missing. */
  function ContextOf(c: Config, s: State, item: nat): Option<Context> {
    if item < |s.items| && s.items[item].signal in s.signals then
      var sig := s.signals[s.items[item].signal];
      if sig.bot in c.policies then Some(Context(s.items[item].signal, sig.bot, sig.buy, sig.bot in s.enabled)) else None
    else None
  }

  function CapsOf(c: Config, s: State, ctx: Context): Decision {
    if ctx.bot in c.policies then Decide(c.policies[ctx.bot], Used(s.orders, ctx.bot, Today(s)), OpenNow(s.orders, ctx.bot))
    else Refused(BadConfig)
  }

  function FixedOf(c: Config, bot: nat): real {
    if bot in c.policies then c.policies[bot].fixed else 0.0
  }

  /** The adapter call a sized item makes; the key depends on the signal alone. */
  function CallOf(p: Phase, w: nat): Submission
    requires p.Sized?
  {
    Submission(w, p.item, Sig(p.ctx.signal), p.ctx.bot, p.notional)
  }

  ghost function Record(c: Config, s: State, w: nat, status: RowStatus, notional: real): State
    requires w < |s.workers| && (s.workers[w].Blocked? || s.workers[w].Capped? || s.workers[w].Answered?)
  {
    var ctx := s.workers[w].ctx;
    var row := Order(Sig(ctx.signal), ctx.bot, status, notional, Today(s));
    Move(s, w, Recorded(s.workers[w].item)).(orders := Insert(s.orders, row))
  }

  ghost function Do(c: Config, s: State, t: Step): State
    requires Can(c, s, t)
  {
    match t
    case Tick(to) => s.(now := to)
    case Accept(signal, bot, buy) => s.(signals := s.signals[signal := Signal(bot, buy)])
    case Enqueue(signal) =>
      if HasSignal(s.items, signal) then s
      else s.(items := s.items + [NewItem(signal, s.signals[signal].bot, s.now)], claims := s.claims + [0])
    case TakeItem(w, item) =>
      var claims := if item < |s.claims| then s.claims[item := s.claims[item] + 1] else s.claims;
      Move(s, w, Claimed(item)).(items := Claim(s.items, item, w, s.now), claims := claims)
    case Load(w) =>
      var item := s.workers[w].item;
      (match ContextOf(c, s, item)
       case None => Move(s, w, Failing(item))
       case Some(ctx) => Move(s, w, Loaded(item, ctx)))
    case ReadGate(w, readable, wired) =>
      var p := s.workers[w];
      if readable && Armed(c, s.gate) && p.ctx.enabled && wired then Move(s, w, Open(p.item, p.ctx))
      else Move(s, w, Blocked(p.item, p.ctx))
    case WriteNoop(w) => Record(c, s, w, NoopRow, FixedOf(c, s.workers[w].ctx.bot))
    case CheckCaps(w) =>
      var p := s.workers[w];
      (match CapsOf(c, s, p.ctx)
       case Accepted(notional) => Move(s, w, Sized(p.item, p.ctx, notional))
       case Refused(_) => Move(s, w, Capped(p.item, p.ctx)))
    case WriteRejected(w) => Record(c, s, w, RejectedRow, FixedOf(c, s.workers[w].ctx.bot))
    case Submit(w, answered) =>
      var p := s.workers[w];
      Move(s, w, if answered then Answered(p.item, p.ctx, p.notional) else Failing(p.item))
        .(submissions := s.submissions + [CallOf(p, w)])
    case WriteFilled(w) => Record(c, s, w, FilledRow, s.workers[w].notional)
    case AckItem(w) => Move(s, w, Closing(s.workers[w].item)).(items := Ack(s.items, s.workers[w].item, w))
    case Finish(w) => Move(s, w, Idle)
    case Raise(w) => Move(s, w, Failing(s.workers[w].item))
    case NackItem(w) => Move(s, w, Idle).(items := Nack(s.items, s.workers[w].item, w, s.now + c.retryDelay))
    case Crash(w) => Move(s, w, Idle)
    case SweepItems => s.(items := Sweep(s.items, s.now, c.stale))
    case HoldItems => s.(items := Hold(s.items))
    case ReleaseItems => s.(items := Release(s.items, s.now))
    case Engage => s.(gate := s.gate.(kill := true), enabled := {})
    case Disengage => s.(gate := s.gate.(kill := false))
    case Arm(on) => s.(gate := s.gate.(dbArmed := on))
    case EnableBot(bot, on) => s.(enabled := if on then s.enabled + {bot} else s.enabled - {bot})
  }

  // ── Runs ────────────────────────────────────────────────────────────────

  ghost predicate Init(s: State) {
    && s.items == [] && s.claims == [] && s.orders == [] && s.submissions == [] && s.signals == map[]
    && |s.workers| > 0
    && forall w :: 0 <= w < |s.workers| ==> s.workers[w].Idle?
  }

  datatype Run = Run(states: seq<State>, steps: seq<Step>)

  /** A sequence of states joined by steps, from any state. */
  ghost predicate Connected(c: Config, r: Run) {
    && |r.states| == |r.steps| + 1
    && forall i :: 0 <= i < |r.steps| ==> Can(c, r.states[i], r.steps[i]) && r.states[i + 1] == Do(c, r.states[i], r.steps[i])
  }

  ghost predicate IsRun(c: Config, r: Run) {
    Connected(c, r) && Init(r.states[0])
  }

  lemma StepAt(c: Config, r: Run, i: nat)
    requires Connected(c, r) && i < |r.steps|
    ensures Can(c, r.states[i], r.steps[i]) && r.states[i + 1] == Do(c, r.states[i], r.steps[i])
  {}
}
