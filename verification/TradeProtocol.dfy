/**
 The trade pipeline as a system of atomic steps. Workers read messages and run the
 pipeline, resolvers look stuck trades up, an approval desk decides proposals, the
 webhook and its sweeper enqueue, the exchange answers as it likes. Anyone can
 crash between any two steps; a message not deleted is delivered again.
 */
module TradeProtocol {
  import opened Basics
  import opened TradeStore

  // ── The exchange ────────────────────────────────────────────────────────

  datatype Placed = Placed(side: Side, status: TradeStatus)

  /** One call of createOrder. */
  datatype Call = Call(trade: nat, key: Key, cid: nat, side: Side)

  /** A final answer is the truth; an answer that is not final may be out of date. */
  predicate CanReport(actual: TradeStatus, report: TradeStatus) {
    report != Pending && (Terminal(report) ==> report == actual)
  }

  // ── Actors ──────────────────────────────────────────────────────────────

  /** The columns of a bot's row the pipeline branches on. */
  datatype Bot = Bot(active: bool, credential: bool, tradingEnabled: bool, sellEnabled: bool, live: bool)

  datatype Phase =
    | Idle
    | Received(mid: nat, message: Message)
    | Loaded(mid: nat, key: Key, side: Side, approved: bool, bot: Bot)
    | Fresh(mid: nat, key: Key, side: Side, approved: bool, bot: Bot)     // no trade for the signal yet
    | Clear(mid: nat, key: Key, side: Side, approved: bool, bot: Bot)     // no unresolved trade of the bot
    | Ready(mid: nat, key: Key, side: Side, approved: bool, bot: Bot, requested: Option<real>)
    | Holding(mid: nat, id: nat, cid: nat)                                // pending row inserted
    | Cleared(mid: nat, id: nat, cid: nat)                                // about to call createOrder
    | Sent(mid: nat, id: nat, cid: nat)
    | Answered(mid: nat, id: nat, cid: nat, report: TradeStatus)          // createOrder returned an order
    | Unwritten(mid: nat, id: nat)                                        // its status update failed
    | Refused(mid: nat, id: nat, cid: nat)                                // auth error or rejection
    | Fetching(mid: nat, id: nat, cid: nat)                               // transient error: inline lookup
    | Found(mid: nat, id: nat, cid: nat, report: TradeStatus)
    | Uncertain(mid: nat, id: nat)                                        // lookup failed or found nothing
    | NeedsJob(mid: nat, id: nat)
    | Leaving(mid: nat, ack: bool)

  datatype Lookup = NotFound | Order(report: TradeStatus)

  datatype Resolver =
    | Resting
    | Selected(id: nat)
    | Looked(id: nat, result: Lookup)
    | Won(id: nat)                        // its guarded update changed the row
    | Closed(id: nat)                     // job update done, audit row to write

  // ── State ───────────────────────────────────────────────────────────────

  datatype Config = Config(
    visibility: nat,                // queue visibility timeout, seconds
    lag: nat,                       // an accepted order is visible this long after its row was created
    auditFailClosed: bool,
    lossyWrites: bool,              // may an update be applied although its answer is lost?
    bootResolver: bool,             // do workers resolve at boot, beside the runtime scan?
    limits: map<nat, Limits>
  )

  /** The boot resolver's threshold; also the age at which a pending row blocks its bot. */
  const THRESHOLD: nat := 60
  const SCAN_MARGIN: nat := 15

  /** The runtime scan's threshold never falls below visibility timeout plus margin. */
  function ScanThreshold(c: Config): (t: nat)
    ensures t >= THRESHOLD && t >= c.visibility + SCAN_MARGIN
  {
    if THRESHOLD < c.visibility + SCAN_MARGIN then c.visibility + SCAN_MARGIN else THRESHOLD
  }

  /** No resolver looks at a trade younger than this. */
  function Cutoff(c: Config): nat {
    if c.bootResolver then THRESHOLD else ScanThreshold(c)
  }

  datatype State = State(
    now: nat,
    trades: seq<Trade>,
    jobs: map<nat, JobStatus>,
    proposals: map<Key, Proposal>,
    granted: set<Key>,              // approved, message not sent yet
    logged: map<Key, Side>,         // accepted webhook signals
    queue: map<nat, Queued>,
    bots: map<nat, Bot>,
    travelling: map<nat, nat>,      // client order id -> trade of requests the exchange may still accept
    placed: map<nat, Placed>,       // orders on the exchange, by client order id
    calls: seq<Call>,
    workers: seq<Phase>,
    resolvers: seq<Resolver>,
    audits: seq<nat>                // trades the resolvers wrote an audit row for
  )

  // ── Steps of a worker ───────────────────────────────────────────────────

  datatype Verdict = Retry | Block | Size(requested: Option<real>)

  datatype WorkerStep =
    | Read(mid: nat)
    | DropMalformed
    | LoadBot
    | CheckTrade(queryFailed: bool)
    | CheckUnresolved(queryFailed: bool)
    | Prepare(verdict: Verdict)
    | Simulate(cid: nat, applied: bool)
    | ProposeOrder(user: nat, expiresAt: nat, applied: bool)
    | ReserveTrade(cid: nat, rpcFailed: bool)
    | AuditCreated
    | AuditBlocked(applied: bool)
    | CreateOrder
    | OrderReturned(report: TradeStatus)
    | OrderRefused
    | AnswerLost
    | WriteStatus(applied: bool, answered: bool)
    | MarkUnknown(applied: bool)
    | WriteFailed(applied: bool)
    | FetchFound(report: TradeStatus)
    | FetchNull
    | FetchFailed
    | WriteFound(applied: bool)
    | WriteUncertain(applied: bool)
    | AddJob(applied: bool)
    | Leave(deleted: bool)
    | Crash

  /** The timing assumption on the pipeline: its work on a row ends within the visibility timeout. */
  predicate InTime(c: Config, s: State, id: nat) {
    id < |s.trades| && s.now <= s.trades[id].createdAt + c.visibility
  }

  /** The exchange may still not show an accepted order. */
  predicate MayLag(c: Config, s: State, id: nat) {
    id < |s.trades| && s.now <= s.trades[id].createdAt + c.lag
  }

  /** The policy gates: kill switch, and per side the exit opt-in or both caps configured. */
  predicate GatesOpen(b: Bot, side: Side, limits: Limits) {
    b.tradingEnabled && (if side == Sell then b.sellEnabled else limits.maxOrder.Some? && limits.dailyCap.Some?)
  }

  /** A buy is sized with a positive notional, an exit carries none. */
  predicate WellSized(side: Side, requested: Option<real>) {
    if side == Buy then requested.Some? && requested.value > 0.0 else requested.None?
  }

  function LimitsOf(c: Config, bot: nat): Limits {
    if bot in c.limits then c.limits[bot] else Limits(None, None)
  }

  predicate ReportedBy(s: State, cid: nat, report: TradeStatus) {
    cid in s.placed && CanReport(s.placed[cid].status, report)
  }

  ghost predicate CanWork(c: Config, s: State, p: Phase, t: WorkerStep) {
    match t
    case Read(mid) => p.Idle? && mid in s.queue && s.queue[mid].visibleAt <= s.now
    case DropMalformed => p.Received? && p.message.Malformed?
    case LoadBot => p.Received? && p.message.Signal?
    case CheckTrade(_) => p.Loaded?
    case CheckUnresolved(_) => p.Fresh?
    case Prepare(v) => p.Clear? && (v.Size? ==> GatesOpen(p.bot, p.side, LimitsOf(c, p.key.bot)) && WellSized(p.side, v.requested))
    case Simulate(_, _) => p.Ready? && !p.bot.live
    case ProposeOrder(_, _, _) => p.Ready? && p.bot.live && !p.approved
    case ReserveTrade(_, _) => p.Ready? && p.bot.live && p.approved
    case AuditCreated => p.Holding? && InTime(c, s, p.id)
    case AuditBlocked(_) => p.Holding? && InTime(c, s, p.id) && c.auditFailClosed
    case CreateOrder => p.Cleared? && InTime(c, s, p.id)
    case OrderReturned(report) => p.Sent? && InTime(c, s, p.id) && ReportedBy(s, p.cid, report)
    case OrderRefused => p.Sent? && InTime(c, s, p.id) && p.cid !in s.placed
    case AnswerLost => p.Sent? && InTime(c, s, p.id)
    case WriteStatus(applied, answered) => p.Answered? && InTime(c, s, p.id) && (answered || !applied || c.lossyWrites) && (answered ==> applied)
    case MarkUnknown(_) => p.Unwritten? && InTime(c, s, p.id)
    case WriteFailed(_) => p.Refused? && InTime(c, s, p.id)
    case FetchFound(report) => p.Fetching? && InTime(c, s, p.id) && ReportedBy(s, p.cid, report)
    case FetchNull => p.Fetching? && InTime(c, s, p.id) && (p.cid in s.placed ==> MayLag(c, s, p.id))
    case FetchFailed => p.Fetching? && InTime(c, s, p.id)
    case WriteFound(_) => p.Found? && InTime(c, s, p.id)
    case WriteUncertain(_) => p.Uncertain? && InTime(c, s, p.id)
    case AddJob(_) => p.NeedsJob?
    case Leave(_) => p.Leaving?
    case Crash => true
  }

  /** The worker's next phase. */
  ghost function NextPhase(c: Config, s: State, p: Phase, t: WorkerStep): Phase
    requires CanWork(c, s, p, t)
  {
    match t
    case Read(mid) => Received(mid, s.queue[mid].message)
    case DropMalformed => Leaving(p.mid, true)
    case LoadBot =>
      var key := p.message.key;
      if key.bot !in s.bots || !s.bots[key.bot].active || !s.bots[key.bot].credential then Leaving(p.mid, true)
      else Loaded(p.mid, key, p.message.side, p.message.approved, s.bots[key.bot])
    case CheckTrade(queryFailed) =>
      if !queryFailed && exists i :: 0 <= i < |s.trades| && s.trades[i].key == p.key then
        var i :| 0 <= i < |s.trades| && s.trades[i].key == p.key;
        if s.trades[i].status == Unknown then NeedsJob(p.mid, i) else Leaving(p.mid, true)
      else Fresh(p.mid, p.key, p.side, p.approved, p.bot)
    case CheckUnresolved(queryFailed) =>
      if queryFailed || BotBlocked(s, p.key.bot) then Leaving(p.mid, false) else Clear(p.mid, p.key, p.side, p.approved, p.bot)
    case Prepare(v) =>
      (match v
       case Retry => Leaving(p.mid, false)
       case Block => Leaving(p.mid, true)
       case Size(requested) => Ready(p.mid, p.key, p.side, p.approved, p.bot, requested))
    case Simulate(_, _) => Leaving(p.mid, true)
    case ProposeOrder(_, _, _) => Leaving(p.mid, true)
    case ReserveTrade(cid, rpcFailed) =>
      if rpcFailed then Leaving(p.mid, false)
      else if Reserves(c, s, p, cid) then Holding(p.mid, |s.trades|, cid)
      else Leaving(p.mid, true)
    case AuditCreated => Cleared(p.mid, p.id, p.cid)
    case AuditBlocked(_) => Leaving(p.mid, true)
    case CreateOrder => Sent(p.mid, p.id, p.cid)
    case OrderReturned(report) => Answered(p.mid, p.id, p.cid, report)
    case OrderRefused => Refused(p.mid, p.id, p.cid)
    case AnswerLost => Fetching(p.mid, p.id, p.cid)
    case WriteStatus(_, answered) =>
      if !answered then Unwritten(p.mid, p.id) else if p.report == Unknown then NeedsJob(p.mid, p.id) else Leaving(p.mid, true)
    case MarkUnknown(_) => NeedsJob(p.mid, p.id)
    case WriteFailed(_) => Leaving(p.mid, true)
    case FetchFound(report) => Found(p.mid, p.id, p.cid, report)
    case FetchNull => Uncertain(p.mid, p.id)
    case FetchFailed => Uncertain(p.mid, p.id)
    case WriteFound(_) => Leaving(p.mid, true)
    case WriteUncertain(_) => NeedsJob(p.mid, p.id)
    case AddJob(_) => Leaving(p.mid, true)
    case Leave(_) => Idle
    case Crash => Idle
  }

  /** The worker's reservation goes through. */
  ghost predicate Reserves(c: Config, s: State, p: Phase, cid: nat)
    requires p.Ready?
  {
    Reservable(s.trades, p.key, cid, p.side, p.requested, LimitsOf(c, p.key.bot), s.now)
  }

  // What a worker's step does to each table it can touch.

  ghost function TradesNext(c: Config, s: State, p: Phase, t: WorkerStep): seq<Trade>
    requires CanWork(c, s, p, t)
  {
    match t
    case Simulate(cid, applied) =>
      var requested := if p.requested.Some? then p.requested else Some(0.0);
      if applied then Inserted(s.trades, Trade(p.key, p.side, requested, Filled, s.now, cid, true)) else s.trades
    case ReserveTrade(cid, rpcFailed) =>
      if !rpcFailed && Reserves(c, s, p, cid)
      then s.trades + [NewTrade(p.key, cid, p.side, if p.side == Buy then p.requested else None, s.now)]
      else s.trades
    case AuditBlocked(applied) => Written(s.trades, p.id, Cancelled, applied)
    case WriteStatus(applied, _) => Written(s.trades, p.id, p.report, applied)
    case MarkUnknown(applied) => Written(s.trades, p.id, Unknown, applied)
    case WriteFailed(applied) => Written(s.trades, p.id, Failed, applied)
    case WriteFound(applied) => Written(s.trades, p.id, p.report, applied)
    case WriteUncertain(applied) => Written(s.trades, p.id, Unknown, applied)
    case _ => s.trades
  }

  ghost function QueueNext(c: Config, s: State, p: Phase, t: WorkerStep): map<nat, Queued>
    requires CanWork(c, s, p, t)
  {
    match t
    case Read(mid) => s.queue[mid := s.queue[mid].(visibleAt := s.now + c.visibility)]
    case Leave(deleted) => if p.ack && deleted then s.queue - {p.mid} else s.queue
    case _ => s.queue
  }

  ghost function JobsNext(c: Config, s: State, p: Phase, t: WorkerStep): map<nat, JobStatus>
    requires CanWork(c, s, p, t)
  {
    if t.AddJob? && t.applied then PutJob(s.jobs, p.id) else s.jobs
  }

  ghost function ProposalsNext(c: Config, s: State, p: Phase, t: WorkerStep): map<Key, Proposal>
    requires CanWork(c, s, p, t)
  {
    if t.ProposeOrder? && t.applied then Propose(s.proposals, p.key, Proposal(t.user, p.side, Undecided, t.expiresAt)) else s.proposals
  }

  ghost function CallsNext(c: Config, s: State, p: Phase, t: WorkerStep): seq<Call>
    requires CanWork(c, s, p, t)
  {
    if t.CreateOrder? then s.calls + [Call(p.id, s.trades[p.id].key, p.cid, s.trades[p.id].side)] else s.calls
  }

  /** createOrder lets a request travel; a refusal means it was not accepted. */
  ghost function TravellingNext(c: Config, s: State, p: Phase, t: WorkerStep): map<nat, nat>
    requires CanWork(c, s, p, t)
  {
    match t
    case CreateOrder => s.travelling[p.cid := p.id]
    case OrderRefused => s.travelling - {p.cid}
    case _ => s.travelling
  }

  /** The rest of the state after a worker's step, and the worker's next phase. */
  ghost function Work(c: Config, s: State, p: Phase, t: WorkerStep): (State, Phase)
    requires CanWork(c, s, p, t)
  {
    (s.(trades := TradesNext(c, s, p, t),
        queue := QueueNext(c, s, p, t),
        jobs := JobsNext(c, s, p, t),
        proposals := ProposalsNext(c, s, p, t),
        calls := CallsNext(c, s, p, t),
        travelling := TravellingNext(c, s, p, t)),
     NextPhase(c, s, p, t))
  }

  function Written(trades: seq<Trade>, id: nat, status: TradeStatus, applied: bool): seq<Trade> {
    if applied then WithStatus(trades, id, status) else trades
  }

  /** Some trade of the bot is unknown, or pending for longer than the threshold. */
  ghost predicate BotBlocked(s: State, bot: nat) {
    exists i :: 0 <= i < |s.trades| && Blocking(s.trades[i], bot, s.now - THRESHOLD)
  }

  // ── Steps of a resolver ─────────────────────────────────────────────────

  datatype ResolverStep =
    | Select(id: nat, scan: bool)
    | Skip                              // no adapter, transient error, or crash
    | AuthFailed(applied: bool)
    | LookFound(report: TradeStatus)
    | LookNull
    | Update(applied: bool)
    | UpdateTheJob(applied: bool)
    | Audit(applied: bool)

  ghost predicate CanResolve(c: Config, s: State, p: Resolver, t: ResolverStep) {
    match t
    case Select(id, scan) =>
      && p.Resting? && (scan || c.bootResolver) && id < |s.trades| && Stuck(s.trades[id].status)
      && s.trades[id].createdAt + (if scan then ScanThreshold(c) else THRESHOLD) < s.now
    case Skip => true
    case AuthFailed(_) => p.Selected?
    case LookFound(report) => p.Selected? && p.id < |s.trades| && ReportedBy(s, s.trades[p.id].cid, report)
    case LookNull => p.Selected? && p.id < |s.trades| && (s.trades[p.id].cid in s.placed ==> MayLag(c, s, p.id))
    case Update(_) => p.Looked?
    case UpdateTheJob(_) => p.Won?
    case Audit(_) => p.Closed?
  }

  /** The status a lookup settles a trade with, if it is final. */
  function Settles(result: Lookup): Option<TradeStatus> {
    match result
    case NotFound => Some(Failed)
    case Order(report) => if Terminal(report) then Some(report) else None
  }

  /** The update of a settled result finds the row still stuck. */
  predicate Wins(s: State, p: Resolver, t: ResolverStep) {
    t.Update? && t.applied && p.Looked? && Settles(p.result).Some? && p.id < |s.trades| && Stuck(s.trades[p.id].status)
  }

  ghost function NextResolver(c: Config, s: State, p: Resolver, t: ResolverStep): Resolver
    requires CanResolve(c, s, p, t)
  {
    match t
    case Select(id, _) => Selected(id)
    case Skip => Resting
    case AuthFailed(_) => Resting
    case LookFound(report) => Looked(p.id, Order(report))
    case LookNull => Looked(p.id, NotFound)
    case Update(_) => if Wins(s, p, t) then Won(p.id) else Resting
    case UpdateTheJob(_) => Closed(p.id)
    case Audit(_) => Resting
  }

  ghost function JobsResolved(c: Config, s: State, p: Resolver, t: ResolverStep): map<nat, JobStatus>
    requires CanResolve(c, s, p, t)
  {
    match t
    case AuthFailed(applied) => if applied then CloseJob(s.jobs, p.id, JobFailed) else s.jobs
    case UpdateTheJob(applied) => if applied then CloseJob(s.jobs, p.id, JobResolved) else s.jobs
    case _ => s.jobs
  }

  ghost function Resolve(c: Config, s: State, p: Resolver, t: ResolverStep): (State, Resolver)
    requires CanResolve(c, s, p, t)
  {
    (s.(trades := if Wins(s, p, t) then WithStatus(s.trades, p.id, Settles(p.result).value) else s.trades,
        jobs := JobsResolved(c, s, p, t),
        audits := if t.Audit? && t.applied then s.audits + [p.id] else s.audits),
     NextResolver(c, s, p, t))
  }

  // ── Everyone else ───────────────────────────────────────────────────────

  datatype WorldStep =
    | Tick(to: nat)
    | SetBot(bot: nat, row: Bot)                       // operators, arming, pauses, circuit breaker
    | LogSignal(key: Key, side: Side)                  // the webhook accepts a signal
    | EnqueueSignal(mid: nat, key: Key)                // the webhook's send, or a sweeper's re-send
    | EnqueueJunk(mid: nat)
    | Approve(key: Key, user: nat)
    | SendApproved(mid: nat, key: Key)
    | DropApproved(key: Key)                           // the send failed or the function crashed
    | Reject(key: Key, user: nat)
    | ExpireOverdue
    | BootJob(id: nat)
    | Arrive(cid: nat, status: TradeStatus)            // the exchange accepts a travelling request
    | Vanish(cid: nat)                                 // it never will
    | Progress(cid: nat, status: TradeStatus)

  ghost predicate CanHappen(c: Config, s: State, t: WorldStep) {
    match t
    case Tick(to) => to >= s.now
    case SetBot(_, _) => true
    case LogSignal(key, _) => key !in s.logged
    case EnqueueSignal(mid, key) => mid !in s.queue && key in s.logged
    case EnqueueJunk(mid) => mid !in s.queue
    case Approve(key, user) => Decidable(s.proposals, key, user)
    case SendApproved(mid, key) => mid !in s.queue && key in s.granted && key in s.proposals
    case DropApproved(key) => key in s.granted
    case Reject(key, user) => Decidable(s.proposals, key, user)
    case ExpireOverdue => true
    case BootJob(id) => id < |s.trades| && Stuck(s.trades[id].status) && s.trades[id].createdAt + THRESHOLD < s.now
    case Arrive(cid, status) => cid in s.travelling && MayLag(c, s, s.travelling[cid]) && status != Pending
    case Vanish(cid) => cid in s.travelling
    case Progress(cid, status) => cid in s.placed && !Terminal(s.placed[cid].status) && status != Pending
  }

  ghost function Happen(c: Config, s: State, t: WorldStep): State
    requires CanHappen(c, s, t)
  {
    match t
    case Tick(to) => s.(now := to)
    case SetBot(bot, row) => s.(bots := s.bots[bot := row])
    case LogSignal(key, side) => s.(logged := s.logged[key := side])
    case EnqueueSignal(mid, key) => s.(queue := s.queue[mid := Queued(Signal(key, s.logged[key], false), s.now)])
    case EnqueueJunk(mid) => s.(queue := s.queue[mid := Queued(Malformed, s.now)])
    case Approve(key, user) => s.(proposals := Decided(s.proposals, key, user, Approved), granted := s.granted + {key})
    case SendApproved(mid, key) =>
      s.(queue := s.queue[mid := Queued(Signal(key, s.proposals[key].side, true), s.now)], granted := s.granted - {key})
    case DropApproved(key) => s.(granted := s.granted - {key})
    case Reject(key, user) => s.(proposals := Decided(s.proposals, key, user, Declined))
    case ExpireOverdue => s.(proposals := ExpireAll(s.proposals, s.now))
    case BootJob(id) => s.(jobs := PutJob(s.jobs, id))
    case Arrive(cid, status) =>
      var id := s.travelling[cid];
      s.(travelling := s.travelling - {cid}, placed := s.placed[cid := Placed(s.trades[id].side, status)])
    case Vanish(cid) => s.(travelling := s.travelling - {cid})
    case Progress(cid, status) => s.(placed := s.placed[cid := s.placed[cid].(status := status)])
  }

  // ── The whole system ────────────────────────────────────────────────────

  datatype Step = Worker(w: nat, step: WorkerStep) | Resolving(r: nat, look: ResolverStep) | World(event: WorldStep)

  ghost predicate Can(c: Config, s: State, t: Step) {
    match t
    case Worker(w, step) => w < |s.workers| && CanWork(c, s, s.workers[w], step)
    case Resolving(r, look) => r < |s.resolvers| && CanResolve(c, s, s.resolvers[r], look)
    case World(event) => CanHappen(c, s, event)
  }

  ghost function Do(c: Config, s: State, t: Step): State
    requires Can(c, s, t)
  {
    match t
    case Worker(w, step) =>
      var (s', p) := Work(c, s, s.workers[w], step);
      s'.(workers := s.workers[w := p])
    case Resolving(r, look) =>
      var (s', p) := Resolve(c, s, s.resolvers[r], look);
      s'.(resolvers := s.resolvers[r := p])
    case World(event) => Happen(c, s, event)
  }

  ghost predicate Init(s: State) {
    && s.trades == [] && s.jobs == map[] && s.proposals == map[] && s.granted == {} && s.logged == map[] && s.queue == map[]
    && s.travelling == map[] && s.placed == map[] && s.calls == [] && s.audits == []
    && (forall w :: 0 <= w < |s.workers| ==> s.workers[w].Idle?)
    && (forall r :: 0 <= r < |s.resolvers| ==> s.resolvers[r].Resting?)
  }

  datatype Run = Run(states: seq<State>, steps: seq<Step>)

  ghost predicate Connected(c: Config, r: Run) {
    && |r.states| == |r.steps| + 1
    && forall i :: 0 <= i < |r.steps| ==> Can(c, r.states[i], r.steps[i]) && r.states[i + 1] == Do(c, r.states[i], r.steps[i])
  }

  ghost predicate IsRun(c: Config, r: Run) {
    Connected(c, r) && Init(r.states[0])
  }

  lemma StepAt(c: Config, r: Run, i: nat)
    requires Connected(c, r) && i < |r.steps|
    ensures Can(c, r.states[i], r.steps[i]) && r.states[i + 1] == Do(c, r.states[i], r.steps[i])
  {}
}
