/**
 The pipeline, the approval desk and the sweepers as programs on the database. Each
 method carries out its statements one by one and keeps a record of the steps they
 are in the step system; so what holds of every run of the system holds after any
 sequence of these programs.
 */
module TradeProgram {
  import opened Basics
  import opened TradeStore
  import opened TradeProtocol
  import opened TradeOnce
  import opened TradeTruth
  import opened OrderSizing
  import Z = SizingRisk

  /** What the exchange's calls come to. */
  datatype OrderAnswer = OrderIs(report: TradeStatus) | Rejected | NoAnswer

  datatype FetchAnswer = FetchIs(report: TradeStatus) | FetchNothing | FetchError

  /** What sizing works from; None where reading it failed for a transient reason. */
  datatype Market = Market(rules: Z.Rules, price: Option<real>, freeQuote: Option<real>, freeBase: Option<real>)

  /** The checks of the credential row, its owner, the venue, the environment and the egress. */
  datatype Checks = Pass | Refuse | Unreadable

  /** Everything a message's processing meets from outside. */
  datatype Outside = Outside(
    tradeQueryFails: bool, countQueryFails: bool,
    checks: Checks, sizing: Z.Config, market: Option<Market>,
    cid: nat, simApplied: bool,
    user: nat, ttl: nat, proposalApplied: bool,
    rpcFails: bool, auditWritten: bool, blockApplied: bool,
    order: OrderAnswer, fetch: FetchAnswer,
    statusApplied: bool, unknownApplied: bool, failedApplied: bool, foundApplied: bool, jobApplied: bool
  )

  /** An order the exchange reports is not pending there. */
  predicate Plausible(o: Outside) {
    (o.order.OrderIs? ==> o.order.report != Pending) && (o.fetch.FetchIs? ==> o.fetch.report != Pending)
  }

  /** Size the order: a notional for a buy, none for an exit, Block for every refusal, Retry for missing data. */
  function Sized(side: Side, sizing: Z.Config, market: Option<Market>): (v: Verdict)
    ensures v.Size? ==> WellSized(side, v.requested)
  {
    match market
    case None => Retry
    case Some(m) =>
      if side == Buy then
        match Z.BuyQuantity(sizing, m.rules, m.price, m.freeQuote)
        case Err(_) => Block
        case Ok(_) =>
          Z.BuyPasses(sizing, m.rules, m.price, m.freeQuote);
          Size(Some(Z.RequestedNotional(sizing, m.freeQuote).value))
      else
        match Z.SellQuantity(sizing, m.rules, m.freeBase)
        case Err(_) => Block
        case Ok(None) => Block
        case Ok(Some(_)) => Size(None)
  }

  /** What the approval functions answer. */
  datatype DeskAnswer = TicketUsed | UpdateFailed | NotPending | EnqueueFailed | Accepted

  // ── What a message comes to ─────────────────────────────────────────────

  /** A message hidden from other readers until a time. */
  function Hidden(queue: map<nat, Queued>, mid: nat, until: nat): map<nat, Queued> {
    if mid in queue then queue[mid := queue[mid].(visibleAt := until)] else queue
  }

  /** The keys of a sweep whose send goes through. */
  function Delivered(claimed: seq<Key>, fails: set<Key>): seq<Key> {
    if claimed == [] then []
    else
      var front, last := Delivered(claimed[..|claimed| - 1], fails), claimed[|claimed| - 1];
      if last in fails then front else front + [last]
  }

  /** The queue after sending one unapproved message per key, with ids from the next one on. */
  function Requeued(queue: map<nat, Queued>, next: nat, keys: seq<Key>, sides: map<Key, Side>, now: nat): map<nat, Queued>
    requires forall i :: 0 <= i < |keys| ==> keys[i] in sides
  {
    if keys == [] then queue
    else
      var last := keys[|keys| - 1];
      Requeued(queue, next, keys[..|keys| - 1], sides, now)[next + |keys| - 1 := Queued(Signal(last, sides[last], false), now)]
  }

  lemma RequeuedOneMore(queue: map<nat, Queued>, next: nat, keys: seq<Key>, key: Key, sides: map<Key, Side>, now: nat)
    requires key in sides && forall i :: 0 <= i < |keys| ==> keys[i] in sides
    ensures forall i :: 0 <= i < |keys + [key]| ==> (keys + [key])[i] in sides
    ensures Requeued(queue, next, keys + [key], sides, now) ==
      Requeued(queue, next, keys, sides, now)[next + |keys| := Queued(Signal(key, sides[key], false), now)]
  {
    assert (keys + [key])[..|keys|] == keys;
  }

  /** Where the checks before any order send a message. */
  datatype Plan = Drop | Later | Repeat(id: nat) | Fill(requested: Option<real>) | Offer | Place(requested: Option<real>)

  /** The one trade of a signal. */
  ghost predicate OnlyTrade(trades: seq<Trade>, key: Key, id: nat) {
    id < |trades| && forall i :: 0 <= i < |trades| ==> (trades[i].key == key <==> i == id)
  }

  ghost predicate Unresolved(trades: seq<Trade>, bot: nat, now: nat) {
    exists i :: 0 <= i < |trades| && Blocking(trades[i], bot, now - THRESHOLD)
  }

  predicate BotReady(bots: map<nat, Bot>, bot: nat) {
    bot in bots && bots[bot].active && bots[bot].credential
  }

  /** Past the checks for earlier trades: gates, size, mode. */
  function ActionFor(c: Config, bot: Bot, m: Message, o: Outside): Plan
    requires m.Signal?
  {
    if o.checks.Unreadable? then Later
    else if o.checks.Refuse? || !GatesOpen(bot, m.side, LimitsOf(c, m.key.bot)) || (m.side == Buy && !Z.ConfigReady(o.sizing)) then Drop
    else
      match Sized(m.side, o.sizing, o.market)
      case Retry => Later
      case Block => Drop
      case Size(requested) => if !bot.live then Fill(requested) else if !m.approved then Offer else Place(requested)
  }

  ghost function PlanFor(c: Config, trades: seq<Trade>, bots: map<nat, Bot>, m: Message, now: nat, o: Outside): Plan {
    if m.Malformed? || !BotReady(bots, m.key.bot) then Drop
    else if !o.tradeQueryFails && HasKey(trades, m.key) then
      var i :| 0 <= i < |trades| && trades[i].key == m.key; Repeat(i)
    else if o.countQueryFails || Unresolved(trades, m.key.bot, now) then Later
    else ActionFor(c, bots[m.key.bot], m, o)
  }

  /** The reservation succeeds. */
  ghost predicate RowFits(c: Config, trades: seq<Trade>, m: Message, requested: Option<real>, now: nat, o: Outside)
    requires m.Signal?
  {
    !o.rpcFails && Reservable(trades, m.key, o.cid, m.side, requested, LimitsOf(c, m.key.bot), now)
  }

  /** The order is sent: its audit row was written, or need not be. */
  predicate Goes(c: Config, o: Outside) {
    o.auditWritten || !c.auditFailClosed
  }

  /** The status a reserved trade is left with. */
  function StatusAfter(c: Config, o: Outside): TradeStatus {
    if Goes(c, o) then StatusSent(o) else if o.blockApplied then Cancelled else Pending
  }

  /** The same once the order was sent. */
  function StatusSent(o: Outside): TradeStatus {
    match o.order
    case OrderIs(report) => if o.statusApplied then report else if o.unknownApplied then Unknown else Pending
    case Rejected => if o.failedApplied then Failed else Pending
    case NoAnswer =>
      if o.fetch.FetchIs? then (if o.foundApplied then o.fetch.report else Pending)
      else if o.unknownApplied then Unknown else Pending
  }

  /** The trade gets a reconciliation job. */
  predicate JobAfter(c: Config, o: Outside) {
    Goes(c, o) && JobSent(o)
  }

  predicate JobSent(o: Outside) {
    && o.jobApplied
    && match o.order
      case OrderIs(report) => !o.statusApplied || report == Unknown
      case Rejected => false
      case NoAnswer => !o.fetch.FetchIs?
  }

  /** A trade left unknown gets a job exactly if the insert goes through and its order was not found by the inline lookup. */
  lemma UnknownGetsAJobIff(c: Config, o: Outside)
    requires Goes(c, o) && StatusAfter(c, o) == Unknown
    ensures JobAfter(c, o) <==> o.jobApplied && !(o.order.NoAnswer? && o.fetch.FetchIs?)
  {}

  /** With every statement applied, an order can still be found unknown and get none. */
  lemma FoundUnknownGetsNone(c: Config, cid: nat) returns (o: Outside)
    ensures Plausible(o) && Goes(c, o) && o.statusApplied && o.unknownApplied && o.failedApplied && o.foundApplied && o.jobApplied
    ensures StatusAfter(c, o) == Unknown && !JobAfter(c, o)
  {
    o := Outside(false, false, Pass, Z.Config(Z.Unset, None, None, None, None, false, None), None, cid, true, 0, 0, true,
                 false, true, true, NoAnswer, FetchIs(Unknown), true, true, true, true, true);
  }

  function NewRow(m: Message, requested: Option<real>, now: nat, o: Outside): Trade
    requires m.Signal?
  {
    NewTrade(m.key, o.cid, m.side, if m.side == Buy then requested else None, now)
  }

  function SimulatedRow(m: Message, requested: Option<real>, now: nat, o: Outside): Trade
    requires m.Signal?
  {
    Trade(m.key, m.side, if requested.Some? then requested else Some(0.0), Filled, now, o.cid, true)
  }

  ghost function TradesFor(c: Config, trades: seq<Trade>, m: Message, plan: Plan, now: nat, o: Outside): seq<Trade>
    requires m.Malformed? ==> plan.Drop?
  {
    match plan
    case Fill(requested) => if o.simApplied then Inserted(trades, SimulatedRow(m, requested, now, o)) else trades
    case Place(requested) =>
      if RowFits(c, trades, m, requested, now, o) then trades + [NewRow(m, requested, now, o).(status := StatusAfter(c, o))] else trades
    case _ => trades
  }

  ghost function JobsFor(c: Config, trades: seq<Trade>, jobs: map<nat, JobStatus>, m: Message, plan: Plan, now: nat, o: Outside): map<nat, JobStatus>
    requires m.Malformed? ==> plan.Drop?
  {
    match plan
    case Repeat(id) => if id < |trades| && trades[id].status == Unknown && o.jobApplied then PutJob(jobs, id) else jobs
    case Place(requested) => if RowFits(c, trades, m, requested, now, o) && JobAfter(c, o) then PutJob(jobs, |trades|) else jobs
    case _ => jobs
  }

  ghost function ProposalsFor(proposals: map<Key, Proposal>, m: Message, plan: Plan, now: nat, o: Outside): map<Key, Proposal>
    requires m.Malformed? ==> plan.Drop?
  {
    if plan.Offer? && o.proposalApplied then Propose(proposals, m.key, Proposal(o.user, m.side, Undecided, now + o.ttl)) else proposals
  }

  function Rewritten(trades: seq<Trade>, id: nat, first: bool, status: TradeStatus, second: bool, other: TradeStatus): seq<Trade> {
    if first then WithStatus(trades, id, status) else if second then WithStatus(trades, id, other) else trades
  }

  /** How many orders are sent. */
  ghost function OrdersFor(c: Config, trades: seq<Trade>, m: Message, plan: Plan, now: nat, o: Outside): nat
    requires m.Malformed? ==> plan.Drop?
  {
    One(plan.Place? && RowFits(c, trades, m, plan.requested, now, o) && Goes(c, o))
  }

  /** Tables, acknowledgement and number of orders after a message with this plan. */
  ghost predicate Result(c: Config, trades: seq<Trade>, jobs: map<nat, JobStatus>, proposals: map<Key, Proposal>,
                         trades': seq<Trade>, jobs': map<nat, JobStatus>, proposals': map<Key, Proposal>,
                         orders: int, ack: bool, m: Message, plan: Plan, now: nat, o: Outside)
    requires m.Malformed? ==> plan.Drop?
  {
    && ack == !(plan.Later? || (plan.Place? && o.rpcFails))
    && trades' == TradesFor(c, trades, m, plan, now, o)
    && jobs' == JobsFor(c, trades, jobs, m, plan, now, o)
    && proposals' == ProposalsFor(proposals, m, plan, now, o)
    && orders == OrdersFor(c, trades, m, plan, now, o)
  }

  lemma NothingDone(c: Config, trades: seq<Trade>, jobs: map<nat, JobStatus>, proposals: map<Key, Proposal>, m: Message, now: nat, o: Outside)
    ensures Result(c, trades, jobs, proposals, trades, jobs, proposals, 0, true, m, Drop, now, o)
    ensures m.Signal? ==> Result(c, trades, jobs, proposals, trades, jobs, proposals, 0, false, m, Later, now, o)
  {}

  lemma RepeatIs(c: Config, trades: seq<Trade>, bots: map<nat, Bot>, m: Message, now: nat, o: Outside, id: nat)
    requires m.Signal? && BotReady(bots, m.key.bot) && !o.tradeQueryFails && HasKey(trades, m.key) && OnlyTrade(trades, m.key, id)
    ensures PlanFor(c, trades, bots, m, now, o) == Repeat(id)
  {
    hide BotReady, Unresolved, ActionFor;
  }

  lemma PlanIs(c: Config, trades: seq<Trade>, bots: map<nat, Bot>, m: Message, now: nat, o: Outside)
    ensures var plan := PlanFor(c, trades, bots, m, now, o);
      && (m.Malformed? || !BotReady(bots, m.key.bot) ==> plan == Drop)
      && (m.Signal? && BotReady(bots, m.key.bot) ==>
            if !o.tradeQueryFails && HasKey(trades, m.key) then plan.Repeat? && plan.id < |trades| && trades[plan.id].key == m.key
            else if o.countQueryFails || Unresolved(trades, m.key.bot, now) then plan == Later
            else plan == ActionFor(c, bots[m.key.bot], m, o))
  {
    hide ActionFor, Unresolved, BotReady;
  }

  /** A message left in the queue has changed nothing; delivering it again repeats nothing. */
  lemma LeftMeansUntouched(c: Config, trades: seq<Trade>, jobs: map<nat, JobStatus>, proposals: map<Key, Proposal>,
                           bots: map<nat, Bot>, m: Message, now: nat, o: Outside)
    requires var plan := PlanFor(c, trades, bots, m, now, o); plan.Later? || (plan.Place? && o.rpcFails)
    ensures var plan := PlanFor(c, trades, bots, m, now, o);
      && TradesFor(c, trades, m, plan, now, o) == trades && JobsFor(c, trades, jobs, m, plan, now, o) == jobs
      && ProposalsFor(proposals, m, plan, now, o) == proposals && OrdersFor(c, trades, m, plan, now, o) == 0
  {
    hide ActionFor, Unresolved, HasKey, HasCid;
  }

  /**
   Once a signal has a trade, no later delivery of any message for it adds a trade or
   sends an order, whatever fails on the way, the query for that very trade included.
   */
  lemma SecondDeliveryPlacesNothing(c: Config, trades: seq<Trade>, bots: map<nat, Bot>, m: Message, now: nat, o: Outside)
    requires m.Signal? && HasKey(trades, m.key)
    ensures var plan := PlanFor(c, trades, bots, m, now, o);
      TradesFor(c, trades, m, plan, now, o) == trades && OrdersFor(c, trades, m, plan, now, o) == 0
  {
    hide ActionFor, Unresolved, HasKey, HasCid;
  }

  class Site {
    const c: Config
    const db: Database
    /** Tickets of the approval functions, each good for one use. */
    var used: set<string>
    /** The run of the step system this site has gone through. */
    ghost var run: Run

    constructor (c: Config, db: Database, ghost start: State)
      requires Init(start) && db.trades == [] && db.jobs == map[] && db.proposals == map[] && db.queue == map[]
      ensures this.c == c && this.db == db && Valid() && Model() == start && used == {}
    {
      this.c := c;
      this.db := db;
      used := {};
      run := Run([start], []);
    }

    // ── The record ────────────────────────────────────────────────────────

    ghost function Model(): State
      requires run.states != []
      reads this
    {
      run.states[|run.states| - 1]
    }

    ghost predicate Recorded()
      reads this
    {
      run.states != [] && IsRun(c, run)
    }

    /** The database is the model's, and new message ids are new. */
    ghost predicate Mirrors(s: State)
      reads db
    {
      && db.trades == s.trades && db.jobs == s.jobs && db.proposals == s.proposals && db.queue == s.queue
      && forall m :: m in db.queue ==> m < db.nextMessage
    }

    ghost predicate Valid()
      reads this, db
    {
      Recorded() && Mirrors(Model())
    }

    ghost predicate At(w: nat, p: Phase)
      requires run.states != []
      reads this
    {
      w < |Model().workers| && Model().workers[w] == p
    }

    /** The record only grew, and neither the clock nor the bots moved. */
    twostate predicate Onward()
      reads this
    {
      && old(run.states) <= run.states && run.states != [] && old(run.states) != []
      && Model().now == old(Model().now) && Model().bots == old(Model().bots)
    }

    ghost method Take(t: Step)
      requires Recorded() && Can(c, Model(), t)
      modifies this`run
      ensures Recorded() && Model() == Do(c, old(Model()), t)
      ensures old(run.states) <= run.states
    {
      run := Run(run.states + [Do(c, Model(), t)], run.steps + [t]);
    }

    /** The tables are those of the last state of a run. */
    lemma TablesAreTheRuns()
      requires Valid()
      ensures run.states != [] && IsRun(c, run)
      ensures db.trades == Model().trades && db.jobs == Model().jobs && db.proposals == Model().proposals && db.queue == Model().queue
    {
      hide IsRun;
    }

    /** What is proved of every run holds here. */
    ghost method Invariants()
      requires Recorded()
      ensures OnceInv(Model())
    {
      OnceInvAlways(c, run, |run.states| - 1);
    }

    // ── Before the order ──────────────────────────────────────────────────

    ghost method DropTheMessage(w: nat, mid: nat, m: Message)
      requires Valid() && m.Malformed? && At(w, Received(mid, m))
      modifies this`run
      ensures Valid() && Onward() && At(w, Leaving(mid, true))
      ensures Model().calls == old(Model().calls)
    {
      Take(Step.Worker(w, DropMalformed));
    }

    /** Read the bot; an unknown, inactive or unconfigured one ends the work. */
    method LoadTheBot(ghost w: nat, mid: nat, m: Message, bots: map<nat, Bot>) returns (bot: Option<Bot>)
      requires Valid() && m.Signal? && At(w, Received(mid, m)) && Model().bots == bots
      modifies this`run
      ensures Valid() && Onward()
      ensures bot.None? ==> At(w, Leaving(mid, true))
      ensures bot.Some? ==> At(w, Loaded(mid, m.key, m.side, m.approved, bot.value))
      ensures bot == if BotReady(bots, m.key.bot) then Some(bots[m.key.bot]) else None
      ensures Model().calls == old(Model().calls)
    {
      Take(Step.Worker(w, LoadBot));
      var bad := m.key.bot !in bots || !bots[m.key.bot].active || !bots[m.key.bot].credential;
      bot := if bad then None else Some(bots[m.key.bot]);
    }

    /** An earlier trade for the signal ends the work; if it is unknown, it gets a job first. */
    method CheckTheTrade(ghost w: nat, mid: nat, m: Message, ghost bot: Bot, ghost now: nat, o: Outside) returns (found: Option<nat>)
      requires Valid() && m.Signal? && At(w, Loaded(mid, m.key, m.side, m.approved, bot))
      modifies this`run, db`jobs
      ensures Valid() && Onward() && Model().calls == old(Model().calls)
      ensures found.Some? == (!o.tradeQueryFails && HasKey(db.trades, m.key))
      ensures found.None? ==> At(w, Fresh(mid, m.key, m.side, m.approved, bot)) && db.jobs == old(db.jobs)
      ensures found.Some? ==> At(w, Leaving(mid, true)) && OnlyTrade(db.trades, m.key, found.value)
      ensures found.Some? ==>
        Result(c, db.trades, old(db.jobs), db.proposals, db.trades, db.jobs, db.proposals, 0, true, m, Repeat(found.value), now, o)
    {
      hide HasKey, OnlyTrade, OnceInv, IsRun, Do, Can, Mirrors;
      found := LookForTheTrade(w, mid, m, bot, o);
      if found.Some? && db.trades[found.value].status == Unknown {
        AddTheJob(w, mid, found.value, o.jobApplied);
      }
    }

    method LookForTheTrade(ghost w: nat, ghost mid: nat, m: Message, ghost bot: Bot, o: Outside) returns (found: Option<nat>)
      requires Valid() && m.Signal? && At(w, Loaded(mid, m.key, m.side, m.approved, bot))
      modifies this`run
      ensures Valid() && Onward() && Model().calls == old(Model().calls)
      ensures found.Some? == (!o.tradeQueryFails && HasKey(db.trades, m.key))
      ensures found.None? ==> At(w, Fresh(mid, m.key, m.side, m.approved, bot))
      ensures found.Some? ==> found.value < |db.trades| && OnlyTrade(db.trades, m.key, found.value)
      ensures found.Some? ==> At(w, if db.trades[found.value].status == Unknown then NeedsJob(mid, found.value) else Leaving(mid, true))
    {
      Invariants();
      assert Unique(db.trades);
      hide OnceInv, IsRun;
      Take(Step.Worker(w, CheckTrade(o.tradeQueryFails)));
      found := None;
      if !o.tradeQueryFails {
        found := db.FindTrade(m.key);
      }
    }

    method AddTheJob(ghost w: nat, ghost mid: nat, id: nat, applied: bool)
      requires Valid() && At(w, NeedsJob(mid, id))
      modifies this`run, db`jobs
      ensures Valid() && Onward() && At(w, Leaving(mid, true))
      ensures db.jobs == if applied then PutJob(old(db.jobs), id) else old(db.jobs)
      ensures Model().calls == old(Model().calls)
    {
      Take(Step.Worker(w, AddJob(applied)));
      if applied {
        db.UpsertJob(id);
      }
    }

    /** Any unresolved trade of the bot, or a query error, leaves the message for later. */
    method CheckTheUnresolved(ghost w: nat, mid: nat, m: Message, ghost bot: Bot, now: nat, o: Outside) returns (blocked: bool)
      requires Valid() && m.Signal? && At(w, Fresh(mid, m.key, m.side, m.approved, bot)) && Model().now == now
      modifies this`run
      ensures Valid() && Onward()
      ensures At(w, if blocked then Leaving(mid, false) else Clear(mid, m.key, m.side, m.approved, bot))
      ensures blocked == (o.countQueryFails || Unresolved(db.trades, m.key.bot, now))
      ensures Model().calls == old(Model().calls)
    {
      Take(Step.Worker(w, CheckUnresolved(o.countQueryFails)));
      blocked := o.countQueryFails;
      if !blocked {
        var n := db.CountUnresolved(m.key.bot, now - THRESHOLD);
        blocked := n > 0;
      }
    }

    /** Checks, gates, then size. */
    method PrepareTheOrder(ghost w: nat, mid: nat, m: Message, bot: Bot, o: Outside) returns (verdict: Verdict)
      requires Valid() && m.Signal? && At(w, Clear(mid, m.key, m.side, m.approved, bot))
      modifies this`run
      ensures Valid() && Onward()
      ensures At(w, match verdict
                    case Retry => Leaving(mid, false)
                    case Block => Leaving(mid, true)
                    case Size(requested) => Ready(mid, m.key, m.side, m.approved, bot, requested))
      ensures verdict ==
        if o.checks.Unreadable? then Retry
        else if o.checks.Refuse? || !GatesOpen(bot, m.side, LimitsOf(c, m.key.bot)) || (m.side == Buy && !Z.ConfigReady(o.sizing)) then Block
        else Sized(m.side, o.sizing, o.market)
      ensures Model().calls == old(Model().calls)
    {
      verdict := Block;
      if o.checks.Unreadable? {
        verdict := Retry;
      } else if o.checks.Pass? && GatesOpen(bot, m.side, LimitsOf(c, m.key.bot)) {
        var missing := [];
        if m.side == Buy {
          missing := MissingFields(o.sizing);
        }
        if missing == [] {
          verdict := Sized(m.side, o.sizing, o.market);
        }
      }
      Take(Step.Worker(w, Prepare(verdict)));
    }

    method RecordSimulatedFill(ghost w: nat, mid: nat, m: Message, ghost bot: Bot, requested: Option<real>, now: nat, o: Outside)
      requires Valid() && m.Signal? && At(w, Ready(mid, m.key, m.side, m.approved, bot, requested)) && !bot.live && Model().now == now
      modifies this`run, db`trades
      ensures Valid() && Onward() && At(w, Leaving(mid, true))
      ensures db.trades == if o.simApplied then Inserted(old(db.trades), SimulatedRow(m, requested, now, o)) else old(db.trades)
      ensures Model().calls == old(Model().calls)
    {
      Take(Step.Worker(w, Simulate(o.cid, o.simApplied)));
      if o.simApplied {
        var notional := if requested.Some? then requested else Some(0.0);
        var id := db.InsertTrade(Trade(m.key, m.side, notional, Filled, now, o.cid, true));
      }
    }

    method ProposeTheOrder(ghost w: nat, mid: nat, m: Message, ghost bot: Bot, ghost requested: Option<real>, now: nat, o: Outside)
      requires Valid() && m.Signal? && !m.approved && At(w, Ready(mid, m.key, m.side, m.approved, bot, requested)) && bot.live && Model().now == now
      modifies this`run, db`proposals
      ensures Valid() && Onward() && At(w, Leaving(mid, true))
      ensures db.proposals == ProposalsFor(old(db.proposals), m, Offer, now, o)
      ensures Model().calls == old(Model().calls)
    {
      Take(Step.Worker(w, ProposeOrder(o.user, now + o.ttl, o.proposalApplied)));
      if o.proposalApplied {
        db.InsertProposal(m.key, Proposal(o.user, m.side, Undecided, now + o.ttl));
      }
    }

    // ── The order ─────────────────────────────────────────────────────────

    /** A client order id no trade carries is not on the exchange either. */
    ghost method NewIds(cid: nat)
      requires Recorded()
      ensures !HasCid(Model().trades, cid) ==> cid !in Model().placed
    {
      Invariants();
      if !HasCid(Model().trades, cid) {
        NewIdIsUnknown(Model(), cid);
      }
    }

    /** The pending row: under the caps for a buy, a plain insert for an exit. */
    method ReserveTheTrade(ghost w: nat, mid: nat, m: Message, ghost bot: Bot, requested: Option<real>, now: nat, o: Outside)
      returns (id: Option<nat>, ack: bool)
      requires Valid() && m.Signal? && m.approved && At(w, Ready(mid, m.key, m.side, m.approved, bot, requested)) && bot.live && Model().now == now
      modifies this`run, db`trades
      ensures Valid() && Onward()
      ensures id.None? ==> At(w, Leaving(mid, ack))
      ensures id.Some? ==> At(w, Holding(mid, id.value, o.cid)) && id.value < |db.trades| && db.trades[id.value].createdAt == now
      ensures id.Some? ==> o.cid !in Model().placed
      ensures ack == !o.rpcFails && (id.Some? ==> ack)
      ensures id == if RowFits(c, old(db.trades), m, requested, now, o) then Some(|old(db.trades)|) else None
      ensures db.trades == if id.Some? then old(db.trades) + [NewRow(m, requested, now, o)] else old(db.trades)
      ensures Model().calls == old(Model().calls)
    {
      NewIds(o.cid);
      hide OnceInv, IsRun;
      id, ack := None, !o.rpcFails;
      if o.rpcFails {
        Take(Step.Worker(w, ReserveTrade(o.cid, true)));
      } else if m.side == Buy {
        id := ReserveBuy(w, mid, m, bot, requested, now, o.cid);
      } else {
        id := ReserveExit(w, mid, m, bot, requested, now, o.cid);
      }
    }

    method ReserveBuy(ghost w: nat, ghost mid: nat, m: Message, ghost bot: Bot, requested: Option<real>, now: nat, cid: nat) returns (id: Option<nat>)
      requires Valid() && m.Signal? && m.approved && At(w, Ready(mid, m.key, m.side, m.approved, bot, requested)) && bot.live && Model().now == now
      requires m.side == Buy
      modifies this`run, db`trades
      ensures Valid() && Onward() && Model().placed == old(Model().placed)
      ensures id.None? ==> At(w, Leaving(mid, true))
      ensures id.Some? ==> At(w, Holding(mid, id.value, cid)) && !HasCid(old(db.trades), cid)
      ensures id ==
        if Reserve(old(db.trades), m.key, cid, m.side, requested, LimitsOf(c, m.key.bot), now).Reserved? then Some(|old(db.trades)|) else None
      ensures db.trades == if id.Some? then old(db.trades) + [NewTrade(m.key, cid, m.side, requested, now)] else old(db.trades)
      ensures Model().calls == old(Model().calls)
    {
      hide OnceInv, IsRun;
      Take(Step.Worker(w, ReserveTrade(cid, false)));
      var outcome := db.InsertPendingTradeAtomic(m.key, cid, m.side, requested, LimitsOf(c, m.key.bot), now);
      id := if outcome.Reserved? then Some(outcome.id) else None;
    }

    method ReserveExit(ghost w: nat, ghost mid: nat, m: Message, ghost bot: Bot, ghost requested: Option<real>, now: nat, cid: nat)
      returns (id: Option<nat>)
      requires Valid() && m.Signal? && m.approved && At(w, Ready(mid, m.key, m.side, m.approved, bot, requested)) && bot.live && Model().now == now
      requires m.side == Sell
      modifies this`run, db`trades
      ensures Valid() && Onward() && Model().placed == old(Model().placed)
      ensures id.None? ==> At(w, Leaving(mid, true))
      ensures id.Some? ==> At(w, Holding(mid, id.value, cid)) && !HasCid(old(db.trades), cid)
      ensures id == if !HasKey(old(db.trades), m.key) && !HasCid(old(db.trades), cid) then Some(|old(db.trades)|) else None
      ensures db.trades == if id.Some? then old(db.trades) + [NewTrade(m.key, cid, m.side, None, now)] else old(db.trades)
      ensures Model().calls == old(Model().calls)
    {
      hide OnceInv, IsRun;
      Take(Step.Worker(w, ReserveTrade(cid, false)));
      id := db.InsertTrade(NewTrade(m.key, cid, m.side, None, now));
    }

    /** With fail-closed auditing and no audit row written, the trade is cancelled before any order. */
    method AuditTheTrade(ghost w: nat, mid: nat, id: nat, ghost now: nat, o: Outside) returns (go: bool)
      requires Valid() && At(w, Holding(mid, id, o.cid)) && id < |db.trades| && Model().now == now == db.trades[id].createdAt
      modifies this`run, db`trades
      ensures Valid() && Onward()
      ensures At(w, if go then Cleared(mid, id, o.cid) else Leaving(mid, true))
      ensures go == Goes(c, o) && Model().placed == old(Model().placed)
      ensures db.trades == if !go && o.blockApplied then WithStatus(old(db.trades), id, Cancelled) else old(db.trades)
      ensures Model().calls == old(Model().calls)
    {
      go := o.auditWritten || !c.auditFailClosed;
      if go {
        Take(Step.Worker(w, AuditCreated));
      } else {
        Take(Step.Worker(w, AuditBlocked(o.blockApplied)));
        if o.blockApplied {
          db.UpdateTrade(id, Cancelled);
        }
      }
    }

    /** createOrder: the request leaves; the exchange may accept it before it answers. */
    ghost method SendTheOrder(w: nat, mid: nat, id: nat, now: nat, o: Outside)
      requires Valid() && At(w, Cleared(mid, id, o.cid)) && id < |db.trades| && Model().now == now == db.trades[id].createdAt
      requires o.cid !in Model().placed && Plausible(o)
      modifies this`run
      ensures Valid() && Onward()
      ensures At(w, match o.order
                    case OrderIs(report) => Answered(mid, id, o.cid, report)
                    case Rejected => Refused(mid, id, o.cid)
                    case NoAnswer => Fetching(mid, id, o.cid))
      ensures |Model().calls| == |old(Model().calls)| + 1
      ensures o.order.NoAnswer? ==> o.cid in Model().travelling && Model().travelling[o.cid] == id && o.cid !in Model().placed
    {
      hide OnceInv, IsRun;
      RequestLeaves(w, mid, id, now, o.cid);
      hide Do, Can;
      match o.order {
        case OrderIs(report) => OrderArrives(w, mid, id, now, o.cid, report);
        case Rejected => OrderIsRefused(w, mid, id, now, o.cid);
        case NoAnswer => AnswerIsLost(w, mid, id, now, o.cid);
      }
    }

    ghost method RequestLeaves(w: nat, mid: nat, id: nat, now: nat, cid: nat)
      requires Valid() && At(w, Cleared(mid, id, cid)) && id < |db.trades| && Model().now == now == db.trades[id].createdAt
      modifies this`run
      ensures Valid() && Onward() && At(w, Sent(mid, id, cid))
      ensures cid in Model().travelling && Model().travelling[cid] == id && Model().placed == old(Model().placed)
      ensures |Model().calls| == |old(Model().calls)| + 1
    {
      hide OnceInv, IsRun;
      Take(Step.Worker(w, CreateOrder));
    }

    ghost method OrderArrives(w: nat, mid: nat, id: nat, now: nat, cid: nat, report: TradeStatus)
      requires Valid() && At(w, Sent(mid, id, cid)) && id < |db.trades| && Model().now == now == db.trades[id].createdAt
      requires cid in Model().travelling && Model().travelling[cid] == id && report != Pending
      modifies this`run
      ensures Valid() && Onward() && At(w, Answered(mid, id, cid, report)) && Model().calls == old(Model().calls)
    {
      hide OnceInv, IsRun;
      Take(Step.World(Arrive(cid, report)));
      Take(Step.Worker(w, OrderReturned(report)));
    }

    ghost method OrderIsRefused(w: nat, mid: nat, id: nat, now: nat, cid: nat)
      requires Valid() && At(w, Sent(mid, id, cid)) && id < |db.trades| && Model().now == now == db.trades[id].createdAt
      requires cid !in Model().placed
      modifies this`run
      ensures Valid() && Onward() && At(w, Refused(mid, id, cid)) && Model().calls == old(Model().calls)
    {
      hide OnceInv, IsRun;
      Take(Step.Worker(w, OrderRefused));
    }

    ghost method AnswerIsLost(w: nat, mid: nat, id: nat, now: nat, cid: nat)
      requires Valid() && At(w, Sent(mid, id, cid)) && id < |db.trades| && Model().now == now == db.trades[id].createdAt
      modifies this`run
      ensures Valid() && Onward() && At(w, Fetching(mid, id, cid)) && Model().calls == old(Model().calls)
      ensures Model().travelling == old(Model().travelling) && Model().placed == old(Model().placed)
    {
      hide OnceInv, IsRun;
      Take(Step.Worker(w, AnswerLost));
    }

    /** The reported status is written; if that fails, the trade is marked unknown and gets a job. */
    method WriteTheStatus(ghost w: nat, mid: nat, id: nat, report: TradeStatus, ghost now: nat, o: Outside)
      requires Valid() && At(w, Answered(mid, id, o.cid, report)) && id < |db.trades| && Model().now == now == db.trades[id].createdAt
      modifies this`run, db`trades, db`jobs
      ensures Valid() && Onward() && At(w, Leaving(mid, true))
      ensures db.trades == Rewritten(old(db.trades), id, o.statusApplied, report, !o.statusApplied && o.unknownApplied, Unknown)
      ensures db.jobs == if o.jobApplied && (!o.statusApplied || report == Unknown) then PutJob(old(db.jobs), id) else old(db.jobs)
      ensures Model().calls == old(Model().calls)
    {
      hide OnceInv, IsRun;
      hide Do, Can, Mirrors, Valid, Recorded;
      UpdateStatus(w, mid, id, report, now, o);
      if o.statusApplied {
        if report == Unknown {
          AddTheJob(w, mid, id, o.jobApplied);
        }
      } else {
        MarkTheUnknown(w, mid, id, now, o);
        AddTheJob(w, mid, id, o.jobApplied);
      }
    }

    method UpdateStatus(ghost w: nat, ghost mid: nat, id: nat, report: TradeStatus, ghost now: nat, o: Outside)
      requires Valid() && At(w, Answered(mid, id, o.cid, report)) && id < |db.trades| && Model().now == now == db.trades[id].createdAt
      modifies this`run, db`trades
      ensures Valid() && Onward() && Model().calls == old(Model().calls)
      ensures At(w, if !o.statusApplied then Unwritten(mid, id) else if report == Unknown then NeedsJob(mid, id) else Leaving(mid, true))
      ensures db.trades == if o.statusApplied then WithStatus(old(db.trades), id, report) else old(db.trades)
    {
      hide OnceInv, IsRun;
      Take(Step.Worker(w, WriteStatus(o.statusApplied, o.statusApplied)));
      if o.statusApplied {
        db.UpdateTrade(id, report);
      }
    }

    method MarkTheUnknown(ghost w: nat, ghost mid: nat, id: nat, ghost now: nat, o: Outside)
      requires Valid() && At(w, Unwritten(mid, id)) && id < |db.trades| && Model().now == now == db.trades[id].createdAt
      modifies this`run, db`trades
      ensures Valid() && Onward() && At(w, NeedsJob(mid, id)) && Model().calls == old(Model().calls)
      ensures db.trades == if o.unknownApplied then WithStatus(old(db.trades), id, Unknown) else old(db.trades)
    {
      hide OnceInv, IsRun;
      Take(Step.Worker(w, MarkUnknown(o.unknownApplied)));
      if o.unknownApplied {
        db.UpdateTrade(id, Unknown);
      }
    }

    /** A refused order: the trade failed. */
    method FailTheTrade(ghost w: nat, mid: nat, id: nat, ghost now: nat, o: Outside)
      requires Valid() && At(w, Refused(mid, id, o.cid)) && id < |db.trades| && Model().now == now == db.trades[id].createdAt
      modifies this`run, db`trades
      ensures Valid() && Onward() && At(w, Leaving(mid, true))
      ensures db.trades == if o.failedApplied then WithStatus(old(db.trades), id, Failed) else old(db.trades)
      ensures Model().calls == old(Model().calls)
    {
      Take(Step.Worker(w, WriteFailed(o.failedApplied)));
      if o.failedApplied {
        db.UpdateTrade(id, Failed);
      }
    }

    /** No answer: look the order up once. Found, its status is written. */
    method FetchInline(ghost w: nat, mid: nat, id: nat, ghost now: nat, o: Outside)
      requires Valid() && At(w, Fetching(mid, id, o.cid)) && id < |db.trades| && Model().now == now == db.trades[id].createdAt
      requires o.cid in Model().travelling && Model().travelling[o.cid] == id && o.cid !in Model().placed && Plausible(o)
      modifies this`run, db`trades, db`jobs
      ensures Valid() && Onward() && At(w, Leaving(mid, true))
      ensures db.trades == if o.fetch.FetchIs? then (if o.foundApplied then WithStatus(old(db.trades), id, o.fetch.report) else old(db.trades))
        else if o.unknownApplied then WithStatus(old(db.trades), id, Unknown) else old(db.trades)
      ensures db.jobs == if o.jobApplied && !o.fetch.FetchIs? then PutJob(old(db.jobs), id) else old(db.jobs)
      ensures Model().calls == old(Model().calls)
    {
      if o.fetch.FetchIs? {
        OrderShowsUp(w, mid, id, now, o);
        Take(Step.Worker(w, WriteFound(o.foundApplied)));
        if o.foundApplied {
          db.UpdateTrade(id, o.fetch.report);
        }
      } else {
        LeaveUncertain(w, mid, id, now, o);
      }
    }

    ghost method OrderShowsUp(w: nat, mid: nat, id: nat, now: nat, o: Outside)
      requires Valid() && At(w, Fetching(mid, id, o.cid)) && id < |db.trades| && Model().now == now == db.trades[id].createdAt
      requires o.cid in Model().travelling && Model().travelling[o.cid] == id && o.fetch.FetchIs? && Plausible(o)
      modifies this`run
      ensures Valid() && Onward() && At(w, Found(mid, id, o.cid, o.fetch.report))
      ensures Model().calls == old(Model().calls)
    {
      Take(Step.World(Arrive(o.cid, o.fetch.report)));
      Take(Step.Worker(w, FetchFound(o.fetch.report)));
    }

    /** Not found, or no answer again: the trade is unknown and gets a job. */
    method LeaveUncertain(ghost w: nat, mid: nat, id: nat, ghost now: nat, o: Outside)
      requires Valid() && At(w, Fetching(mid, id, o.cid)) && id < |db.trades| && Model().now == now == db.trades[id].createdAt
      requires o.cid !in Model().placed && !o.fetch.FetchIs?
      modifies this`run, db`trades, db`jobs
      ensures Valid() && Onward() && At(w, Leaving(mid, true))
      ensures db.trades == if o.unknownApplied then WithStatus(old(db.trades), id, Unknown) else old(db.trades)
      ensures db.jobs == if o.jobApplied then PutJob(old(db.jobs), id) else old(db.jobs)
      ensures Model().calls == old(Model().calls)
    {
      hide OnceInv, IsRun, Do, Can, Mirrors, Valid, Recorded;
      FetchesNothing(w, mid, id, now, o);
      RecordTheUncertain(w, mid, id, now, o);
    }

    method RecordTheUncertain(ghost w: nat, ghost mid: nat, id: nat, ghost now: nat, o: Outside)
      requires Valid() && At(w, Uncertain(mid, id)) && id < |db.trades| && Model().now == now == db.trades[id].createdAt
      modifies this`run, db`trades, db`jobs
      ensures Valid() && Onward() && At(w, Leaving(mid, true))
      ensures db.trades == if o.unknownApplied then WithStatus(old(db.trades), id, Unknown) else old(db.trades)
      ensures db.jobs == if o.jobApplied then PutJob(old(db.jobs), id) else old(db.jobs)
      ensures Model().calls == old(Model().calls)
    {
      hide OnceInv, IsRun, Do, Can, Mirrors, Valid, Recorded;
      WriteTheUncertain(w, mid, id, now, o);
      AddTheJob(w, mid, id, o.jobApplied);
    }

    ghost method FetchesNothing(w: nat, mid: nat, id: nat, now: nat, o: Outside)
      requires Valid() && At(w, Fetching(mid, id, o.cid)) && id < |db.trades| && Model().now == now == db.trades[id].createdAt
      requires o.cid !in Model().placed && !o.fetch.FetchIs?
      modifies this`run
      ensures Valid() && Onward() && At(w, Uncertain(mid, id)) && Model().calls == old(Model().calls)
    {
      hide OnceInv, IsRun;
      Take(Step.Worker(w, if o.fetch.FetchNothing? then FetchNull else FetchFailed));
    }

    method WriteTheUncertain(ghost w: nat, ghost mid: nat, id: nat, ghost now: nat, o: Outside)
      requires Valid() && At(w, Uncertain(mid, id)) && id < |db.trades| && Model().now == now == db.trades[id].createdAt
      modifies this`run, db`trades
      ensures Valid() && Onward() && At(w, NeedsJob(mid, id)) && Model().calls == old(Model().calls)
      ensures db.trades == if o.unknownApplied then WithStatus(old(db.trades), id, Unknown) else old(db.trades)
    {
      hide OnceInv, IsRun;
      Take(Step.Worker(w, WriteUncertain(o.unknownApplied)));
      if o.unknownApplied {
        db.UpdateTrade(id, Unknown);
      }
    }

    /** The order, and what becomes of it. */
    method SendAndRecord(ghost w: nat, mid: nat, id: nat, ghost now: nat, o: Outside)
      requires Valid() && At(w, Cleared(mid, id, o.cid)) && id < |db.trades| && Model().now == now == db.trades[id].createdAt
      requires db.trades[id].status == Pending && o.cid !in Model().placed && Plausible(o)
      modifies this`run, db`trades, db`jobs
      ensures Valid() && Onward() && At(w, Leaving(mid, true))
      ensures db.trades == WithStatus(old(db.trades), id, StatusSent(o))
      ensures db.jobs == if JobSent(o) then PutJob(old(db.jobs), id) else old(db.jobs)
      ensures |Model().calls| == |old(Model().calls)| + 1
    {
      hide OnceInv, IsRun, Mirrors, Valid, Recorded;
      SendTheOrder(w, mid, id, now, o);
      match o.order {
        case OrderIs(report) => WriteTheStatus(w, mid, id, report, now, o);
        case Rejected => FailTheTrade(w, mid, id, now, o);
        case NoAnswer => FetchInline(w, mid, id, now, o);
      }
    }

    /** The order for a reserved trade, unless its audit row is missing. */
    method ExecuteTheOrder(ghost w: nat, mid: nat, id: nat, ghost now: nat, o: Outside)
      requires Valid() && At(w, Holding(mid, id, o.cid)) && id < |db.trades| && Model().now == now == db.trades[id].createdAt
      requires db.trades[id].status == Pending && o.cid !in Model().placed && Plausible(o)
      modifies this`run, db`trades, db`jobs
      ensures Valid() && Onward() && At(w, Leaving(mid, true))
      ensures db.trades == WithStatus(old(db.trades), id, StatusAfter(c, o))
      ensures db.jobs == if JobAfter(c, o) then PutJob(old(db.jobs), id) else old(db.jobs)
      ensures |Model().calls| == |old(Model().calls)| + One(Goes(c, o))
    {
      hide OnceInv, IsRun, Mirrors, Valid, Recorded, StatusSent, JobSent;
      var go := AuditTheTrade(w, mid, id, now, o);
      if go {
        SendAndRecord(w, mid, id, now, o);
      }
    }

    /** From the reservation on. */
    method PlaceTheOrder(ghost w: nat, mid: nat, m: Message, ghost bot: Bot, requested: Option<real>, now: nat, o: Outside) returns (ack: bool)
      requires Valid() && m.Signal? && m.approved && At(w, Ready(mid, m.key, m.side, m.approved, bot, requested)) && bot.live && Model().now == now
      requires Plausible(o)
      modifies this`run, db`trades, db`jobs
      ensures Valid() && Onward() && At(w, Leaving(mid, ack)) && ack == !o.rpcFails
      ensures db.trades == TradesFor(c, old(db.trades), m, Place(requested), now, o)
      ensures db.jobs == JobsFor(c, old(db.trades), old(db.jobs), m, Place(requested), now, o)
      ensures |Model().calls| == |old(Model().calls)| + OrdersFor(c, old(db.trades), m, Place(requested), now, o)
    {
      hide OnceInv, IsRun, Mirrors, StatusAfter, JobAfter, RowFits;
      var id;
      id, ack := ReserveTheTrade(w, mid, m, bot, requested, now, o);
      if id.Some? {
        ExecuteTheOrder(w, mid, id.value, now, o);
        ack := true;
      }
    }

    /** A message past the checks: simulated, proposed or placed. */
    method ActOnTheSignal(ghost w: nat, mid: nat, m: Message, bot: Bot, now: nat, o: Outside, ghost bots: map<nat, Bot>) returns (ack: bool)
      requires Valid() && m.Signal? && At(w, Clear(mid, m.key, m.side, m.approved, bot)) && Model().now == now && Plausible(o)
      requires BotReady(bots, m.key.bot) && bots[m.key.bot] == bot
      requires PlanFor(c, db.trades, bots, m, now, o) == ActionFor(c, bot, m, o)
      modifies this`run, db`trades, db`jobs, db`proposals
      ensures Valid() && Onward() && At(w, Leaving(mid, ack))
      ensures Result(c, old(db.trades), old(db.jobs), old(db.proposals), db.trades, db.jobs, db.proposals,
        |Model().calls| - |old(Model().calls)|, ack, m, PlanFor(c, old(db.trades), bots, m, now, o), now, o)
    {
      hide OnceInv, IsRun, Mirrors, PlanFor, RowFits, StatusAfter, JobAfter;
      ack := true;
      var verdict := PrepareTheOrder(w, mid, m, bot, o);
      match verdict {
        case Retry => ack := false;
        case Block =>
        case Size(requested) =>
          if !bot.live {
            RecordSimulatedFill(w, mid, m, bot, requested, now, o);
          } else if !m.approved {
            ProposeTheOrder(w, mid, m, bot, requested, now, o);
          } else {
            ack := PlaceTheOrder(w, mid, m, bot, requested, now, o);
          }
      }
    }

    /** A signal without a trade: other unresolved trades of the bot first, then the action. */
    method ClearTheSignal(ghost w: nat, mid: nat, m: Message, bot: Bot, now: nat, o: Outside, ghost bots: map<nat, Bot>) returns (ack: bool)
      requires Valid() && m.Signal? && At(w, Fresh(mid, m.key, m.side, m.approved, bot)) && Model().now == now && Plausible(o)
      requires BotReady(bots, m.key.bot) && bots[m.key.bot] == bot && (o.tradeQueryFails || !HasKey(db.trades, m.key))
      modifies this`run, db`trades, db`jobs, db`proposals
      ensures Valid() && Onward() && At(w, Leaving(mid, ack))
      ensures Result(c, old(db.trades), old(db.jobs), old(db.proposals), db.trades, db.jobs, db.proposals,
        |Model().calls| - |old(Model().calls)|, ack, m, PlanFor(c, old(db.trades), bots, m, now, o), now, o)
    {
      PlanIs(c, db.trades, bots, m, now, o);
      NothingDone(c, db.trades, db.jobs, db.proposals, m, now, o);
      hide OnceInv, IsRun, Mirrors, Valid, Recorded, Unresolved, PlanFor, Result, At, HasKey;
      var blocked := CheckTheUnresolved(w, mid, m, bot, now, o);
      if blocked {
        return false;
      }
      ack := ActOnTheSignal(w, mid, m, bot, now, o, bots);
    }

    /** A signal of a bot that may trade: earlier trades first, then the action. */
    method ScreenTheSignal(ghost w: nat, mid: nat, m: Message, bot: Bot, now: nat, o: Outside, ghost bots: map<nat, Bot>) returns (ack: bool)
      requires Valid() && m.Signal? && At(w, Loaded(mid, m.key, m.side, m.approved, bot)) && Model().now == now && Plausible(o)
      requires BotReady(bots, m.key.bot) && bots[m.key.bot] == bot
      modifies this`run, db`trades, db`jobs, db`proposals
      ensures Valid() && Onward() && At(w, Leaving(mid, ack))
      ensures Result(c, old(db.trades), old(db.jobs), old(db.proposals), db.trades, db.jobs, db.proposals,
        |Model().calls| - |old(Model().calls)|, ack, m, PlanFor(c, old(db.trades), bots, m, now, o), now, o)
    {
      PlanIs(c, db.trades, bots, m, now, o);
      NothingDone(c, db.trades, db.jobs, db.proposals, m, now, o);
      hide OnceInv, IsRun, Mirrors, Valid, Recorded, Unresolved, PlanFor, Result, At, HasKey, OnlyTrade;
      var found := CheckTheTrade(w, mid, m, bot, now, o);
      if found.Some? {
        RepeatIs(c, db.trades, bots, m, now, o, found.value);
        return true;
      }
      ack := ClearTheSignal(w, mid, m, bot, now, o, bots);
    }

    /** A read message, worked off; ack says whether it may be deleted. */
    method ProcessMessage(ghost w: nat, mid: nat, m: Message, bots: map<nat, Bot>, now: nat, o: Outside) returns (ack: bool)
      requires Valid() && At(w, Received(mid, m)) && Model().bots == bots && Model().now == now && Plausible(o)
      modifies this`run, db`trades, db`jobs, db`proposals
      ensures Valid() && Onward() && At(w, Leaving(mid, ack))
      ensures Result(c, old(db.trades), old(db.jobs), old(db.proposals), db.trades, db.jobs, db.proposals,
        |Model().calls| - |old(Model().calls)|, ack, m, PlanFor(c, old(db.trades), bots, m, now, o), now, o)
    {
      PlanIs(c, db.trades, bots, m, now, o);
      NothingDone(c, db.trades, db.jobs, db.proposals, m, now, o);
      hide OnceInv, IsRun, Mirrors, Valid, Recorded, BotReady, PlanFor, Result, At;
      ack := true;
      if m.Malformed? {
        DropTheMessage(w, mid, m);
      } else {
        ack := HandleTheSignal(w, mid, m, bots, now, o);
      }
    }

    /** A message of the frozen shape: the bot first, then everything else. */
    method HandleTheSignal(ghost w: nat, mid: nat, m: Message, bots: map<nat, Bot>, now: nat, o: Outside) returns (ack: bool)
      requires Valid() && m.Signal? && At(w, Received(mid, m)) && Model().bots == bots && Model().now == now && Plausible(o)
      modifies this`run, db`trades, db`jobs, db`proposals
      ensures Valid() && Onward() && At(w, Leaving(mid, ack))
      ensures Result(c, old(db.trades), old(db.jobs), old(db.proposals), db.trades, db.jobs, db.proposals,
        |Model().calls| - |old(Model().calls)|, ack, m, PlanFor(c, old(db.trades), bots, m, now, o), now, o)
    {
      PlanIs(c, db.trades, bots, m, now, o);
      NothingDone(c, db.trades, db.jobs, db.proposals, m, now, o);
      hide OnceInv, IsRun, Mirrors, Valid, Recorded, BotReady, PlanFor, Result, At;
      ack := true;
      var bot := LoadTheBot(w, mid, m, bots);
      if bot.Some? {
        ack := ScreenTheSignal(w, mid, m, bot.value, now, o, bots);
      }
    }

    /** One poll: read a message, work it off, delete it if acknowledged and the delete succeeds. */
    method PollOnce(ghost w: nat, bots: map<nat, Bot>, now: nat, o: Outside, deleted: bool) returns (mid: Option<nat>, ack: bool)
      requires Valid() && At(w, Idle) && Model().bots == bots && Model().now == now && Plausible(o)
      modifies this`run, db
      ensures Valid() && Onward() && At(w, Idle)
      ensures mid.None? ==> forall m :: m in old(db.queue) ==> old(db.queue)[m].visibleAt > now
      ensures mid.None? ==> db.trades == old(db.trades) && db.jobs == old(db.jobs) && db.proposals == old(db.proposals) && db.queue == old(db.queue)
      ensures mid.Some? ==> mid.value in old(db.queue) && old(db.queue)[mid.value].visibleAt <= now
      ensures mid.Some? ==> var hidden := Hidden(old(db.queue), mid.value, now + c.visibility);
        db.queue == if ack && deleted then hidden - {mid.value} else hidden
      ensures mid.Some? ==> var m := old(db.queue)[mid.value].message;
        Result(c, old(db.trades), old(db.jobs), old(db.proposals), db.trades, db.jobs, db.proposals,
          |Model().calls| - |old(Model().calls)|, ack, m, PlanFor(c, old(db.trades), bots, m, now, o), now, o)
    {
      hide OnceInv, IsRun, PlanFor, Result;
      ack := false;
      mid := ReadMessage(w, now);
      if mid.Some? {
        hide Do, Can, Mirrors;
        assert mid.value in db.queue;
        ack := ProcessMessage(w, mid.value, db.queue[mid.value].message, bots, now, o);
        DeleteMessage(w, mid.value, ack, deleted);
      }
    }

    method ReadMessage(ghost w: nat, now: nat) returns (mid: Option<nat>)
      requires Valid() && At(w, Idle) && Model().now == now
      modifies this`run, db`queue
      ensures Valid() && Onward() && Model().calls == old(Model().calls)
      ensures mid.None? ==> At(w, Idle) && db.queue == old(db.queue) && forall m :: m in db.queue ==> db.queue[m].visibleAt > now
      ensures mid.Some? ==> mid.value in old(db.queue) && old(db.queue)[mid.value].visibleAt <= now
      ensures mid.Some? ==> db.queue == Hidden(old(db.queue), mid.value, now + c.visibility)
      ensures mid.Some? ==> At(w, Received(mid.value, old(db.queue)[mid.value].message))
    {
      hide OnceInv, IsRun;
      mid := db.Read(now, c.visibility);
      if mid.Some? {
        Take(Step.Worker(w, TradeProtocol.Read(mid.value)));
      }
    }

    method DeleteMessage(ghost w: nat, mid: nat, ack: bool, deleted: bool)
      requires Valid() && At(w, Leaving(mid, ack))
      modifies this`run, db`queue
      ensures Valid() && Onward() && At(w, Idle) && Model().calls == old(Model().calls)
      ensures db.queue == if ack && deleted then old(db.queue) - {mid} else old(db.queue)
    {
      hide OnceInv, IsRun;
      Take(Step.Worker(w, Leave(deleted)));
      if ack && deleted {
        db.Delete(mid);
      }
    }

    // ── Everyone else ─────────────────────────────────────────────────────

    /** A ticket is spent before anything else happens, and only once. */
    method ClaimTicket(jti: string) returns (fits: bool)
      modifies this`used
      ensures fits == (jti !in old(used)) && used == old(used) + {jti}
    {
      fits := jti !in used;
      used := used + {jti};
    }

    /** Approve: the undecided proposal of this user, then the message; a failed send is not repeated. */
    method ApproveOrder(jti: string, key: Key, user: nat, now: nat, updateFails: bool, sendFails: bool) returns (answer: DeskAnswer)
      requires Valid() && Model().now == now
      modifies this`run, this`used, db`proposals, db`queue, db`nextMessage
      ensures Valid() && Onward() && used == old(used) + {jti}
      ensures answer ==
        if jti in old(used) then TicketUsed
        else if updateFails then UpdateFailed
        else if !Decidable(old(db.proposals), key, user) then NotPending
        else if sendFails then EnqueueFailed
        else Accepted
      ensures db.proposals == if answer in {EnqueueFailed, Accepted} then Decided(old(db.proposals), key, user, Approved) else old(db.proposals)
      ensures db.queue == if answer == Accepted
        then old(db.queue)[old(db.nextMessage) := Queued(Signal(key, old(db.proposals)[key].side, true), now)] else old(db.queue)
    {
      hide OnceInv, IsRun;
      var fits := ClaimTicket(jti);
      if !fits {
        return TicketUsed;
      }
      if updateFails {
        return UpdateFailed;
      }
      var side := MarkApproved(key, user);
      hide Do, Can;
      if side.None? {
        return NotPending;
      }
      SendTheApproved(key, side.value, now, sendFails);
      answer := if sendFails then EnqueueFailed else Accepted;
    }

    method MarkApproved(key: Key, user: nat) returns (side: Option<Side>)
      requires Valid()
      modifies this`run, db`proposals
      ensures Valid() && Onward()
      ensures side == if Decidable(old(db.proposals), key, user) then Some(old(db.proposals)[key].side) else None
      ensures db.proposals == Decided(old(db.proposals), key, user, Approved)
      ensures side.Some? ==> key in db.proposals && db.proposals[key].side == side.value && key in Model().granted
    {
      hide OnceInv, IsRun;
      side := db.DecideProposal(key, user, Approved);
      if side.Some? {
        Take(Step.World(Approve(key, user)));
      }
    }

    method SendTheApproved(key: Key, side: Side, now: nat, sendFails: bool)
      requires Valid() && Model().now == now && key in Model().granted && key in db.proposals && db.proposals[key].side == side
      modifies this`run, db`queue, db`nextMessage
      ensures Valid() && Onward()
      ensures db.queue == if sendFails then old(db.queue) else old(db.queue)[old(db.nextMessage) := Queued(Signal(key, side, true), now)]
    {
      hide OnceInv, IsRun;
      if sendFails {
        Take(Step.World(DropApproved(key)));
      } else {
        var id := db.Send(Signal(key, side, true), now);
        Take(Step.World(SendApproved(id, key)));
      }
    }

    method RejectOrder(jti: string, key: Key, user: nat, updateFails: bool) returns (answer: DeskAnswer)
      requires Valid()
      modifies this`run, this`used, db`proposals
      ensures Valid() && Onward() && used == old(used) + {jti}
      ensures answer ==
        if jti in old(used) then TicketUsed
        else if updateFails then UpdateFailed
        else if !Decidable(old(db.proposals), key, user) then NotPending
        else Accepted
      ensures db.proposals == if answer == Accepted then Decided(old(db.proposals), key, user, Declined) else old(db.proposals)
    {
      hide OnceInv, IsRun;
      var fits := ClaimTicket(jti);
      if !fits {
        return TicketUsed;
      }
      if updateFails {
        return UpdateFailed;
      }
      var side := db.DecideProposal(key, user, Declined);
      if side.None? {
        return NotPending;
      }
      Take(Step.World(Reject(key, user)));
      answer := Accepted;
    }

    /** The proposal sweeper's pass. */
    method ExpireProposals(now: nat)
      requires Valid() && Model().now == now
      modifies this`run, db`proposals
      ensures Valid() && Onward()
      ensures db.proposals == ExpireAll(old(db.proposals), now)
      ensures forall key :: key in db.proposals ==> !Overdue(db.proposals[key], now)
    {
      hide OnceInv, IsRun;
      db.ExpireProposals(now);
      Take(Step.World(ExpireOverdue));
    }

    /** The requeue sweeper's pass over the signals it claimed: one unapproved message each, as the webhook sent it. */
    method RequeueSignals(claimed: seq<Key>, sides: map<Key, Side>, now: nat, fails: set<Key>) returns (requeued: nat, failed: nat)
      requires Valid() && Model().now == now && Model().logged == sides && forall i :: 0 <= i < |claimed| ==> claimed[i] in sides
      modifies this`run, db`queue, db`nextMessage
      ensures Valid() && Onward()
      ensures requeued == |Delivered(claimed, fails)| && failed == |claimed| - requeued
      ensures forall i :: 0 <= i < |Delivered(claimed, fails)| ==> Delivered(claimed, fails)[i] in sides
      ensures db.queue == Requeued(old(db.queue), old(db.nextMessage), Delivered(claimed, fails), sides, now)
    {
      hide OnceInv, IsRun;
      requeued, failed := 0, 0;
      var i := 0;
      while i < |claimed|
        invariant 0 <= i <= |claimed|
        invariant Valid() && Onward() && Model().logged == sides
        invariant requeued == |Delivered(claimed[..i], fails)| && failed == i - requeued
        invariant forall k :: 0 <= k < requeued ==> Delivered(claimed[..i], fails)[k] in sides
        invariant db.nextMessage == old(db.nextMessage) + requeued
        invariant db.queue == Requeued(old(db.queue), old(db.nextMessage), Delivered(claimed[..i], fails), sides, now)
      {
        assert claimed[..i + 1][..i] == claimed[..i];
        if claimed[i] in fails {
          failed := failed + 1;
        } else {
          RequeuedOneMore(old(db.queue), old(db.nextMessage), Delivered(claimed[..i], fails), claimed[i], sides, now);
          SendTheSignal(claimed[i], sides[claimed[i]], now);
          requeued := requeued + 1;
        }
        i := i + 1;
      }
      assert claimed[..i] == claimed;
    }

    method SendTheSignal(key: Key, side: Side, now: nat)
      requires Valid() && Model().now == now && key in Model().logged && Model().logged[key] == side
      modifies this`run, db`queue, db`nextMessage
      ensures Valid() && Onward() && Model().logged == old(Model().logged)
      ensures db.nextMessage == old(db.nextMessage) + 1
      ensures db.queue == old(db.queue)[old(db.nextMessage) := Queued(Signal(key, side, false), now)]
    {
      hide OnceInv, IsRun;
      var id := db.Send(Signal(key, side, false), now);
      Take(Step.World(EnqueueSignal(id, key)));
    }
  }
}
