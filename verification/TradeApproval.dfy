/**
 Nothing is ordered without approval: every createOrder belongs to an approved
 proposal and takes the proposal's side; a rejected or expired proposal leads to
 no order in any state of any run.
 */
module TradeApproval {
  import opened Basics
  import opened TradeStore
  import opened TradeProtocol
  import opened TradeEffects
  import opened TradeOnce

  ghost predicate Granted(proposals: map<Key, Proposal>, key: Key, side: Side) {
    key in proposals && proposals[key].decision == Approved && proposals[key].side == side
  }

  /** Decided once means decided for ever, and nothing else of a proposal changes. */
  ghost predicate DecisionsStand(before: map<Key, Proposal>, after: map<Key, Proposal>) {
    forall key :: key in before ==>
      && key in after
      && after[key] == before[key].(decision := after[key].decision)
      && (before[key].decision != Undecided ==> after[key] == before[key])
  }

  /** The message carries an approval only if the proposal was approved, with its side. */
  ghost predicate MessageFits(proposals: map<Key, Proposal>, m: Message) {
    m.Signal? && m.approved ==> Granted(proposals, m.key, m.side)
  }

  ghost predicate PhaseGranted(s: State, p: Phase) {
    && (p.Received? ==> MessageFits(s.proposals, p.message))
    && ((p.Loaded? || p.Fresh? || p.Clear? || p.Ready?) && p.approved ==> Granted(s.proposals, p.key, p.side))
    && (Owns(p) ==> p.id < |s.trades| && Granted(s.proposals, s.trades[p.id].key, s.trades[p.id].side))
  }

  ghost predicate ApprovalInv(s: State) {
    && (forall key :: key in s.granted ==> key in s.proposals && s.proposals[key].decision == Approved)
    && (forall m :: m in s.queue ==> MessageFits(s.proposals, s.queue[m].message))
    && (forall w :: 0 <= w < |s.workers| ==> PhaseGranted(s, s.workers[w]))
    && (forall k :: 0 <= k < |s.calls| ==> Granted(s.proposals, s.calls[k].key, s.calls[k].side))
  }

  // ── Proposals ───────────────────────────────────────────────────────────

  lemma WorkGrants(c: Config, s: State, p: Phase, t: WorkerStep)
    requires CanWork(c, s, p, t)
    ensures Work(c, s, p, t).0.granted == s.granted
  {}

  lemma OnlyProposing(c: Config, s: State, p: Phase, t: WorkerStep)
    requires CanWork(c, s, p, t) && !t.ProposeOrder?
    ensures Work(c, s, p, t).0.proposals == s.proposals
  {}

  lemma WorkProposals(c: Config, s: State, p: Phase, t: WorkerStep)
    requires CanWork(c, s, p, t)
    ensures DecisionsStand(s.proposals, Work(c, s, p, t).0.proposals)
  {
    if !t.ProposeOrder? {
      OnlyProposing(c, s, p, t);
      hide Work, CanWork;
    }
  }

  lemma HappenProposals(c: Config, s: State, t: WorldStep)
    requires CanHappen(c, s, t)
    ensures DecisionsStand(s.proposals, Happen(c, s, t).proposals)
  {}

  lemma ProposalsStand(c: Config, s: State, t: Step)
    requires Can(c, s, t)
    ensures DecisionsStand(s.proposals, Do(c, s, t).proposals)
  {
    match t
    case Worker(w, step) =>
      WorkProposals(c, s, s.workers[w], step);
      hide Work;
    case Resolving(r, look) =>
      ResolveKeepsActors(c, s, s.resolvers[r], look);
      hide Resolve;
    case World(event) =>
      HappenProposals(c, s, event);
      hide Happen;
  }

  // ── Messages ────────────────────────────────────────────────────────────

  lemma WorkQueue(c: Config, s: State, p: Phase, t: WorkerStep)
    requires CanWork(c, s, p, t)
    ensures forall m :: m in Work(c, s, p, t).0.queue ==> m in s.queue && Work(c, s, p, t).0.queue[m].message == s.queue[m].message
  {}

  lemma HappenQueue(c: Config, s: State, t: WorldStep)
    requires CanHappen(c, s, t)
    requires forall key :: key in s.granted ==> key in s.proposals && s.proposals[key].decision == Approved
    ensures forall m :: m in Happen(c, s, t).queue ==>
      (m in s.queue && Happen(c, s, t).queue[m].message == s.queue[m].message) || MessageFits(s.proposals, Happen(c, s, t).queue[m].message)
    ensures forall key :: key in Happen(c, s, t).granted ==>
      key in Happen(c, s, t).proposals && Happen(c, s, t).proposals[key].decision == Approved
  {}

  /** A message now in the queue was there before, or is an honest new one. */
  lemma QueueAfter(c: Config, s: State, t: Step, m: nat)
    requires Can(c, s, t) && ApprovalInv(s) && m in Do(c, s, t).queue
    ensures MessageFits(s.proposals, Do(c, s, t).queue[m].message)
  {
    match t
    case Worker(w, step) =>
      WorkQueue(c, s, s.workers[w], step);
      hide Work;
    case Resolving(r, look) =>
      ResolveKeepsActors(c, s, s.resolvers[r], look);
      hide Resolve;
    case World(event) =>
      HappenQueue(c, s, event);
      hide Happen;
  }

  lemma GrantsAfter(c: Config, s: State, t: Step, key: Key)
    requires Can(c, s, t) && ApprovalInv(s) && key in Do(c, s, t).granted
    ensures key in Do(c, s, t).proposals && Do(c, s, t).proposals[key].decision == Approved
  {
    ProposalsStand(c, s, t);
    match t
    case Worker(w, step) =>
      WorkGrants(c, s, s.workers[w], step);
      hide Work;
    case Resolving(r, look) =>
      ResolveKeepsActors(c, s, s.resolvers[r], look);
      hide Resolve;
    case World(event) =>
      HappenQueue(c, s, event);
      hide Happen;
  }

  // ── Workers ─────────────────────────────────────────────────────────────

  lemma WorkGranted(c: Config, s: State, p: Phase, t: WorkerStep)
    requires CanWork(c, s, p, t) && PhaseGranted(s, p)
    requires forall m :: m in s.queue ==> MessageFits(s.proposals, s.queue[m].message)
    requires PhaseFits(s.trades, p)
    ensures var q := Work(c, s, p, t).1;
      && (q.Received? ==> MessageFits(s.proposals, q.message))
      && ((q.Loaded? || q.Fresh? || q.Clear? || q.Ready?) && q.approved ==> Granted(s.proposals, q.key, q.side))
  {
    hide HasKey, HasCid, Reserves, BotBlocked, InTime, ReportedBy, Granted;
  }

  lemma WorkOwnsGranted(c: Config, s: State, p: Phase, t: WorkerStep)
    requires CanWork(c, s, p, t) && PhaseGranted(s, p) && PhaseFits(s.trades, p) && Owns(Work(c, s, p, t).1)
    ensures var q, trades' := Work(c, s, p, t).1, Applied(s.trades, WorkEffect(c, s, p, t));
      q.id < |trades'| && Granted(s.proposals, trades'[q.id].key, trades'[q.id].side)
  {
    WorkCarries(c, s, p, t);
    WorkEffectFacts(c, s, p, t);
    hide Work, WorkEffect, CanWork;
  }

  lemma PhaseStillGranted(s: State, s': State, p: Phase)
    requires PhaseGranted(s, p) && DecisionsStand(s.proposals, s'.proposals) && Extends(s.trades, s'.trades)
    ensures PhaseGranted(s', p)
  {}

  lemma ActorGranted(c: Config, s: State, t: Step)
    requires Can(c, s, t) && t.Worker? && ApprovalInv(s) && PhasesFit(s)
    ensures PhaseGranted(Do(c, s, t), Do(c, s, t).workers[t.w])
  {
    var p := s.workers[t.w];
    assert PhaseFits(s.trades, p);
    WorkGranted(c, s, p, t.step);
    if Owns(Work(c, s, p, t.step).1) {
      WorkOwnsGranted(c, s, p, t.step);
    }
    ProposalsStand(c, s, t);
    TradesAfter(c, s, t);
    OthersStay(c, s, t);
    assert Effect(c, s, t) == WorkEffect(c, s, p, t.step);
    hide Do, Work, WorkEffect, Effect, Applied, Can, CanWork;
  }

  lemma PhasesGrantedKept(c: Config, s: State, t: Step, w: nat)
    requires Can(c, s, t) && ApprovalInv(s) && PhasesFit(s) && w < |Do(c, s, t).workers|
    ensures PhaseGranted(Do(c, s, t), Do(c, s, t).workers[w])
  {
    OthersStay(c, s, t);
    if t.Worker? && t.w == w {
      ActorGranted(c, s, t);
    } else {
      ProposalsStand(c, s, t);
      RowsKept(c, s, t);
      hide Do, Can, PhaseGranted;
      PhaseStillGranted(s, Do(c, s, t), s.workers[w]);
    }
  }

  lemma CallsGrantedKept(c: Config, s: State, t: Step, k: nat)
    requires Can(c, s, t) && ApprovalInv(s) && k < |Do(c, s, t).calls|
    ensures Granted(Do(c, s, t).proposals, Do(c, s, t).calls[k].key, Do(c, s, t).calls[k].side)
  {
    CallsAfter(c, s, t);
    ProposalsStand(c, s, t);
    if t.Worker? && t.step.CreateOrder? {
      assert PhaseGranted(s, s.workers[t.w]);
    }
    hide Do, Can;
  }

  lemma ApprovalInvKept(c: Config, s: State, t: Step)
    requires Can(c, s, t) && ApprovalInv(s) && PhasesFit(s)
    ensures ApprovalInv(Do(c, s, t))
  {
    var s' := Do(c, s, t);
    ProposalsStand(c, s, t);
    hide Do, Can, PhaseGranted;
    forall key | key in s'.granted
      ensures key in s'.proposals && s'.proposals[key].decision == Approved
    {
      GrantsAfter(c, s, t, key);
    }
    forall m | m in s'.queue
      ensures MessageFits(s'.proposals, s'.queue[m].message)
    {
      QueueAfter(c, s, t, m);
    }
    forall w | 0 <= w < |s'.workers|
      ensures PhaseGranted(s', s'.workers[w])
    {
      PhasesGrantedKept(c, s, t, w);
    }
    forall k | 0 <= k < |s'.calls|
      ensures Granted(s'.proposals, s'.calls[k].key, s'.calls[k].side)
    {
      CallsGrantedKept(c, s, t, k);
    }
  }

  // ── Over whole runs ─────────────────────────────────────────────────────

  lemma {:induction false} ApprovalInvAlways(c: Config, r: Run, n: nat)
    requires IsRun(c, r) && n < |r.states|
    ensures ApprovalInv(r.states[n])
  {
    if n > 0 {
      ApprovalInvAlways(c, r, n - 1);
      OnceInvAlways(c, r, n - 1);
      StepAt(c, r, n - 1);
      ApprovalInvKept(c, r.states[n - 1], r.steps[n - 1]);
    }
  }

  lemma {:induction false} DecisionsStandAlways(c: Config, r: Run, m: nat, n: nat)
    requires Connected(c, r) && m <= n < |r.states|
    ensures DecisionsStand(r.states[m].proposals, r.states[n].proposals)
    decreases n - m
  {
    if m < n {
      StepAt(c, r, m);
      ProposalsStand(c, r.states[m], r.steps[m]);
      DecisionsStandAlways(c, r, m + 1, n);
      hide Do, Can, Connected;
    }
  }

  /** Every order was approved, and has the side the user approved. */
  lemma OrdersAreApproved(c: Config, r: Run, n: nat, k: nat)
    requires IsRun(c, r) && n < |r.states| && k < |r.states[n].calls|
    ensures Granted(r.states[n].proposals, r.states[n].calls[k].key, r.states[n].calls[k].side)
  {
    ApprovalInvAlways(c, r, n);
  }

  /** Once rejected or expired, a proposal has led, and ever will lead, to no order. */
  lemma RefusedMeansNoOrder(c: Config, r: Run, m: nat, n: nat, key: Key, k: nat)
    requires IsRun(c, r) && m < |r.states| && n < |r.states|
    requires key in r.states[m].proposals && r.states[m].proposals[key].decision in {Declined, Expired}
    requires k < |r.states[n].calls|
    ensures r.states[n].calls[k].key != key
  {
    OrdersAreApproved(c, r, n, k);
    if m <= n {
      DecisionsStandAlways(c, r, m, n);
    } else {
      DecisionsStandAlways(c, r, n, m);
    }
  }
}
