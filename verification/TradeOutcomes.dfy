/**
 What a message leaves in the tables, told by their columns: the day's sum and the
 reservation, the row and its status for every answer of the exchange, the job, the
 proposal, and whether the message is deleted.
 */
module TradeOutcomes {
  import opened Basics
  import opened TradeStore
  import opened TradeProtocol
  import opened TradeProgram

  // ── The reservation ─────────────────────────────────────────────────────

  /** A row adds its notional to its bot's day exactly while it may still be, or is, filled. */
  lemma DaySumCounts(trades: seq<Trade>, t: Trade, bot: nat, dayStart: nat)
    ensures DaySum(trades + [t], bot, dayStart) == DaySum(trades, bot, dayStart) +
      (if t.key.bot == bot && t.createdAt >= dayStart && t.requested.Some? && t.status !in {Cancelled, Failed} then t.requested.value else 0.0)
    ensures DaySum([], bot, dayStart) == 0.0
  {
    assert (trades + [t])[..|trades|] == trades;
    StatusesApart(t.status);
  }

  lemma StatusesApart(status: TradeStatus)
    ensures status in {Pending, Submitted, Unknown, Filled} <==> status !in {Cancelled, Failed}
  {
    match status
    case Pending =>
    case Submitted =>
    case Unknown =>
    case Filled =>
    case Cancelled =>
    case Failed =>
  }

  /** The last midnight, in seconds. */
  lemma DayStartIs(now: nat)
    ensures DayStart(now) <= now < DayStart(now) + 86400 && DayStart(now) % 86400 == 0
  {}

  /** Some row has the signal or the client order id. */
  ghost predicate Clashes(trades: seq<Trade>, key: Key, cid: nat) {
    exists i :: 0 <= i < |trades| && (trades[i].key == key || trades[i].cid == cid)
  }

  lemma ClashesIs(trades: seq<Trade>, key: Key, cid: nat)
    ensures Clashes(trades, key, cid) <==> HasKey(trades, key) || HasCid(trades, cid)
  {}

  /** A buy is reserved under both caps; each refusal, exactly when. */
  lemma ReservationIs(trades: seq<Trade>, key: Key, cid: nat, side: Side, requested: Option<real>, limits: Limits, now: nat)
    ensures var r := Reserve(trades, key, cid, side, requested, limits, now);
      var complete := requested.Some? && limits.maxOrder.Some? && limits.dailyCap.Some?;
      && (r == Outcome.Rejected(InvalidInput) <==> !complete)
      && (r == Outcome.Rejected(PerOrderMax) <==> complete && requested.value > limits.maxOrder.value)
      && (r == Outcome.Rejected(DailyCapReached) <==>
            complete && requested.value <= limits.maxOrder.value
            && DaySum(trades, key.bot, DayStart(now)) + requested.value > limits.dailyCap.value)
      && (r == Outcome.Rejected(DuplicateSignal) <==>
            complete && requested.value <= limits.maxOrder.value
            && DaySum(trades, key.bot, DayStart(now)) + requested.value <= limits.dailyCap.value && Clashes(trades, key, cid))
      && (r == Reserved(|trades|) <==>
            complete && requested.value <= limits.maxOrder.value
            && DaySum(trades, key.bot, DayStart(now)) + requested.value <= limits.dailyCap.value && !Clashes(trades, key, cid))
  {
    ClashesIs(trades, key, cid);
    hide DaySum, DayStart, Clashes, HasKey, HasCid;
  }

  /** A pending row goes in: a buy under both caps, an exit without one. */
  ghost predicate Fits(trades: seq<Trade>, key: Key, cid: nat, side: Side, requested: Option<real>, limits: Limits, now: nat) {
    && !Clashes(trades, key, cid)
    && (side == Buy ==>
          && requested.Some? && limits.maxOrder.Some? && limits.dailyCap.Some? && requested.value <= limits.maxOrder.value
          && DaySum(trades, key.bot, DayStart(now)) + requested.value <= limits.dailyCap.value)
  }

  lemma FitsIs(trades: seq<Trade>, key: Key, cid: nat, side: Side, requested: Option<real>, limits: Limits, now: nat)
    ensures Reservable(trades, key, cid, side, requested, limits, now) <==> Fits(trades, key, cid, side, requested, limits, now)
  {
    ClashesIs(trades, key, cid);
    ReservationIs(trades, key, cid, side, requested, limits, now);
    hide DaySum, DayStart, Clashes, HasKey, HasCid;
  }

  // ── The status a trade is left with ─────────────────────────────────────

  /** An order that is sent: its row's status, by the exchange's answer and the updates that go through. */
  ghost predicate LeftWith(o: Outside, status: TradeStatus) {
    match o.order
    case OrderIs(report) =>
      && (o.statusApplied ==> status == report)
      && (!o.statusApplied && o.unknownApplied ==> status == Unknown)
      && (!o.statusApplied && !o.unknownApplied ==> status == Pending)
    case Rejected =>
      (o.failedApplied ==> status == Failed) && (!o.failedApplied ==> status == Pending)
    case NoAnswer =>
      match o.fetch
      case FetchIs(report) => (o.foundApplied ==> status == report) && (!o.foundApplied ==> status == Pending)
      case FetchNothing => (o.unknownApplied ==> status == Unknown) && (!o.unknownApplied ==> status == Pending)
      case FetchError => (o.unknownApplied ==> status == Unknown) && (!o.unknownApplied ==> status == Pending)
  }

  /** A job is due: the status could not be written, the exchange said unknown, or nothing was found. */
  predicate JobDue(o: Outside) {
    match o.order
    case OrderIs(report) => !o.statusApplied || report == Unknown
    case Rejected => false
    case NoAnswer => o.fetch == FetchNothing || o.fetch == FetchError
  }

  /**
   Without the audit row and failing closed nothing is sent, and the row is cancelled if
   that update goes through; else the order is sent and the status is as the answers say.
   */
  lemma StatusIs(c: Config, o: Outside)
    ensures Goes(c, o) <==> !(c.auditFailClosed && !o.auditWritten)
    ensures Goes(c, o) ==> LeftWith(o, StatusAfter(c, o))
    ensures !Goes(c, o) ==> StatusAfter(c, o) == if o.blockApplied then Cancelled else Pending
    ensures JobAfter(c, o) <==> Goes(c, o) && o.jobApplied && JobDue(o)
  {}

  // ── A message ───────────────────────────────────────────────────────────

  /** The new row of an order. */
  ghost predicate OrderRow(t: Trade, m: Message, requested: Option<real>, now: nat, cid: nat)
    requires m.Signal?
  {
    && t.key == m.key && t.side == m.side && t.createdAt == now && t.cid == cid && !t.simulated
    && t.requested == if m.side == Buy then requested else None
  }

  /** The new row of a simulated fill. */
  ghost predicate SimRow(t: Trade, m: Message, requested: Option<real>, now: nat, cid: nat)
    requires m.Signal?
  {
    && t.key == m.key && t.side == m.side && t.createdAt == now && t.cid == cid && t.simulated && t.status == Filled
    && t.requested == Some(if requested.Some? then requested.value else 0.0)
  }

  /** Of the tables only these change. */
  ghost predicate Same(trades: seq<Trade>, jobs: map<nat, JobStatus>, proposals: map<Key, Proposal>,
                       trades': seq<Trade>, jobs': map<nat, JobStatus>, proposals': map<Key, Proposal>) {
    trades' == trades && jobs' == jobs && proposals' == proposals
  }

  /** The limits of the bot, if it has any. */
  function BotLimits(c: Config, bot: nat): Limits {
    if bot in c.limits then c.limits[bot] else Limits(None, None)
  }

  /** A message that is placed: a row and at most one order if the reservation goes through, else nothing. */
  lemma PlacingComesTo(c: Config, trades: seq<Trade>, jobs: map<nat, JobStatus>, proposals: map<Key, Proposal>,
                       trades': seq<Trade>, jobs': map<nat, JobStatus>, proposals': map<Key, Proposal>,
                       orders: int, ack: bool, m: Message, requested: Option<real>, now: nat, o: Outside)
    requires m.Signal?
    requires Result(c, trades, jobs, proposals, trades', jobs', proposals', orders, ack, m, Place(requested), now, o)
    ensures ack == !o.rpcFails && proposals' == proposals
    ensures
      if o.rpcFails || !Fits(trades, m.key, o.cid, m.side, requested, BotLimits(c, m.key.bot), now) then
        trades' == trades && jobs' == jobs && orders == 0
      else
        var sent := o.auditWritten || !c.auditFailClosed;
        && |trades'| == |trades| + 1 && trades'[..|trades|] == trades && OrderRow(trades'[|trades|], m, requested, now, o.cid)
        && orders == (if sent then 1 else 0)
        && (if sent then LeftWith(o, trades'[|trades|].status)
            else trades'[|trades|].status == if o.blockApplied then Cancelled else Pending)
        && jobs' == if sent && o.jobApplied && JobDue(o) && |trades| !in jobs then jobs[|trades| := JobPending] else jobs
  {
    FitsIs(trades, m.key, o.cid, m.side, requested, BotLimits(c, m.key.bot), now);
    StatusIs(c, o);
    hide Fits, Reservable, StatusAfter, JobAfter, LeftWith, JobDue;
  }

  /** Every other message sends no order; a simulated fill adds its row, an offer its proposal, a repeat of an unknown trade a job. */
  lemma OthersComeTo(c: Config, trades: seq<Trade>, jobs: map<nat, JobStatus>, proposals: map<Key, Proposal>,
                     trades': seq<Trade>, jobs': map<nat, JobStatus>, proposals': map<Key, Proposal>,
                     orders: int, ack: bool, m: Message, plan: Plan, now: nat, o: Outside)
    requires m.Signal? && !plan.Place?
    requires Result(c, trades, jobs, proposals, trades', jobs', proposals', orders, ack, m, plan, now, o)
    ensures orders == 0 && (ack <==> !plan.Later?)
    ensures plan.Drop? || plan.Later? ==> Same(trades, jobs, proposals, trades', jobs', proposals')
    ensures plan.Fill? ==> jobs' == jobs && proposals' == proposals
    ensures plan.Fill? ==>
      if o.simApplied && !Clashes(trades, m.key, o.cid) then
        |trades'| == |trades| + 1 && trades'[..|trades|] == trades && SimRow(trades'[|trades|], m, plan.requested, now, o.cid)
      else trades' == trades
    ensures plan.Offer? ==> trades' == trades && jobs' == jobs
    ensures plan.Offer? ==>
      proposals' == if o.proposalApplied && m.key !in proposals
                    then proposals[m.key := Proposal(o.user, m.side, Undecided, now + o.ttl)] else proposals
    ensures plan.Repeat? ==> trades' == trades && proposals' == proposals
    ensures plan.Repeat? ==>
      jobs' == if o.jobApplied && plan.id < |trades| && trades[plan.id].status == Unknown && plan.id !in jobs
               then jobs[plan.id := JobPending] else jobs
  {
    ClashesIs(trades, m.key, o.cid);
    hide Clashes, HasKey, HasCid, RowFits;
  }

  // ── A message in the system ─────────────────────────────────────────────

  /** The message is as it was, but for the time it is hidden until if this step reads it. */
  ghost predicate Kept(c: Config, s: State, q: map<nat, Queued>, mid: nat, hidden: bool)
    requires mid in s.queue
  {
    && mid in q && q[mid].message == s.queue[mid].message
    && (if hidden then s.queue[mid].visibleAt <= s.now && q[mid].visibleAt == s.now + c.visibility
        else q[mid].visibleAt == s.queue[mid].visibleAt)
  }

  lemma WorkMessages(c: Config, s: State, p: Phase, t: WorkerStep, mid: nat)
    requires CanWork(c, s, p, t) && mid in s.queue
    ensures
      if t.Leave? && t.deleted && p == Leaving(mid, true) then mid !in QueueNext(c, s, p, t)
      else Kept(c, s, QueueNext(c, s, p, t), mid, t.Read? && t.mid == mid)
  {
    hide GatesOpen, WellSized, InTime, MayLag, ReportedBy, LimitsOf;
  }

  lemma WorkQueue(c: Config, s: State, t: Step)
    requires Can(c, s, t) && t.Worker?
    ensures Do(c, s, t).queue == QueueNext(c, s, s.workers[t.w], t.step)
    ensures Do(c, s, t).jobs == JobsNext(c, s, s.workers[t.w], t.step)
    ensures Do(c, s, t).proposals == ProposalsNext(c, s, s.workers[t.w], t.step)
  {
    hide QueueNext, TradesNext, CallsNext, JobsNext, ProposalsNext, TravellingNext, NextPhase, CanWork;
  }

  lemma WorldMessages(c: Config, s: State, t: WorldStep, mid: nat)
    requires CanHappen(c, s, t) && mid in s.queue
    ensures Kept(c, s, Happen(c, s, t).queue, mid, false)
  {
    hide MayLag, Decided, ExpireAll, Decidable;
  }

  lemma ResolveMessages(c: Config, s: State, p: Resolver, t: ResolverStep)
    requires CanResolve(c, s, p, t)
    ensures Resolve(c, s, p, t).0.queue == s.queue
  {
    hide CanResolve, Wins, JobsResolved, NextResolver;
  }

  /** A message leaves the queue only when a worker done with it deletes it; reading hides it, and nothing rewrites it. */
  lemma MessagesStay(c: Config, s: State, t: Step, mid: nat)
    requires Can(c, s, t) && mid in s.queue
    ensures
      if t.Worker? && t.step.Leave? && t.step.deleted && s.workers[t.w] == Leaving(mid, true) then mid !in Do(c, s, t).queue
      else Kept(c, s, Do(c, s, t).queue, mid, t.Worker? && t.step.Read? && t.step.mid == mid)
  {
    match t
    case Worker(w, step) =>
      WorkQueue(c, s, t);
      hide Do, Kept, CanWork;
      WorkMessages(c, s, s.workers[w], step, mid);
    case Resolving(r, look) =>
      ResolveMessages(c, s, s.resolvers[r], look);
      hide Resolve, CanResolve;
    case World(event) =>
      WorldMessages(c, s, event, mid);
      hide Happen, Kept, CanHappen;
  }

  /** A worker adds a job only in its step for that, for its own trade, if the insert goes through and there is none. */
  lemma WorkersAddJobs(c: Config, s: State, t: Step)
    requires Can(c, s, t) && t.Worker?
    ensures var p := s.workers[t.w];
      Do(c, s, t).jobs == if t.step.AddJob? && t.step.applied && p.NeedsJob? && p.id !in s.jobs then s.jobs[p.id := JobPending] else s.jobs
  {
    WorkQueue(c, s, t);
    hide Do, InTime, MayLag, GatesOpen, WellSized, ReportedBy;
  }

  /** A worker offers an order only if the insert goes through and the signal has no proposal; nobody has decided it yet. */
  lemma WorkersOffer(c: Config, s: State, t: Step)
    requires Can(c, s, t) && t.Worker?
    ensures var p := s.workers[t.w];
      Do(c, s, t).proposals ==
        if t.step.ProposeOrder? && t.step.applied && p.Ready? && p.key !in s.proposals
        then s.proposals[p.key := Proposal(t.step.user, p.side, Undecided, t.step.expiresAt)] else s.proposals
  {
    WorkQueue(c, s, t);
    hide Do, InTime, MayLag, GatesOpen, WellSized, ReportedBy;
  }

  /** Done with a message but not to delete it: a fault that may pass, an ambiguous trade, or no answer to the reservation. */
  lemma LeftForLaterIff(c: Config, s: State, p: Phase, t: WorkerStep)
    requires CanWork(c, s, p, t) && NextPhase(c, s, p, t).Leaving?
    ensures !NextPhase(c, s, p, t).ack <==>
      || t == Prepare(Retry)
      || (t.CheckUnresolved? && (t.queryFailed || exists i :: 0 <= i < |s.trades| && Blocking(s.trades[i], p.key.bot, s.now - 60)))
      || (t.ReserveTrade? && t.rpcFailed)
  {
    hide HasKey, HasCid, Reserves, InTime, MayLag, Blocking;
  }

  /** The lookup of an earlier trade goes on exactly if it fails or there is none; it stops for a job exactly if it finds one that is unknown. */
  lemma LookupIs(c: Config, s: State, p: Phase, failed: bool)
    requires CanWork(c, s, p, CheckTrade(failed))
    ensures var q := NextPhase(c, s, p, CheckTrade(failed));
      && (q.Fresh? <==> failed || forall i :: 0 <= i < |s.trades| ==> s.trades[i].key != p.key)
      && (q.NeedsJob? ==> q.id < |s.trades| && s.trades[q.id].key == p.key && s.trades[q.id].status == Unknown)
      && (!q.Fresh? && !q.NeedsJob? ==>
            q == Leaving(p.mid, true) && exists i :: 0 <= i < |s.trades| && s.trades[i].key == p.key && s.trades[i].status != Unknown)
  {}

  // ── The desk and the sweepers ───────────────────────────────────────────

  /** A proposal can be decided exactly by its owner while it is undecided; the decision changes nothing else. */
  lemma DecidingIs(proposals: map<Key, Proposal>, key: Key, user: nat, d: Decision)
    ensures Decided(proposals, key, user, d) ==
      if key in proposals && proposals[key].user == user && proposals[key].decision == Undecided
      then proposals[key := Proposal(user, proposals[key].side, d, proposals[key].expiresAt)] else proposals
  {}

  /** Exactly the undecided proposals past their time expire. */
  lemma ExpiringIs(proposals: map<Key, Proposal>, now: nat, key: Key)
    ensures key in ExpireAll(proposals, now) <==> key in proposals
    ensures key in proposals ==>
      var p, q := proposals[key], ExpireAll(proposals, now)[key];
      if p.decision == Undecided && now > p.expiresAt then q == Proposal(p.user, p.side, Expired, p.expiresAt) else q == p
  {}

  /** A trade keeps a bot waiting exactly if it is unknown, or pending since before the cutoff. */
  lemma BlockingIs(t: Trade, bot: nat, cutoff: int)
    ensures Blocking(t, bot, cutoff) <==> t.key.bot == bot && (t.status == Unknown || (t.status == Pending && t.createdAt < cutoff))
  {}

  /** A sweep's sends: one unapproved message for each key delivered, with the side that was logged, under fresh ids. */
  lemma {:induction false} RequeuedAre(queue: map<nat, Queued>, next: nat, keys: seq<Key>, sides: map<Key, Side>, now: nat, i: nat)
    requires i < |keys| && forall k :: 0 <= k < |keys| ==> keys[k] in sides
    ensures var q := Requeued(queue, next, keys, sides, now);
      && next + i in q && q[next + i].message == Signal(keys[i], sides[keys[i]], false) && q[next + i].visibleAt == now
      && forall mid :: mid in queue && !(next <= mid < next + |keys|) ==> mid in q && q[mid] == queue[mid]
  {
    if |keys| > 1 {
      RequeuedAre(queue, next, keys[..|keys| - 1], sides, now, if i < |keys| - 1 then i else 0);
    }
  }

  /** Delivered are exactly the claimed keys whose send does not fail. */
  lemma {:induction false} DeliveredAre(claimed: seq<Key>, fails: set<Key>, key: Key)
    ensures key in Delivered(claimed, fails) <==> key in claimed && key !in fails
  {
    if claimed != [] {
      DeliveredAre(claimed[..|claimed| - 1], fails, key);
      assert claimed == claimed[..|claimed| - 1] + [claimed[|claimed| - 1]];
    }
  }

  /** A message that is read stays where it is, hidden until the time given. */
  lemma HiddenIs(queue: map<nat, Queued>, mid: nat, until: nat)
    ensures Hidden(queue, mid, until).Keys == queue.Keys
    ensures mid in queue ==>
      Hidden(queue, mid, until)[mid].message == queue[mid].message && Hidden(queue, mid, until)[mid].visibleAt == until
    ensures forall k :: k in queue && k != mid ==> Hidden(queue, mid, until)[k] == queue[k]
  {}
}
