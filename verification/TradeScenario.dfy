/**
 Building runs of the pipeline: sequences of steps, one after the other, and the
 longest of them, which takes a new signal through proposal, approval and both
 deliveries up to its reserved row. No step of it fails and nobody crashes.
 */
module TradeScenario {
  import opened Basics
  import opened TradeStore
  import opened TradeProtocol

  // ── Sequences of steps ──────────────────────────────────────────────────

  function Last(r: Run): State
    requires r.states != []
  {
    r.states[|r.states| - 1]
  }

  /** A crash, or an insert of a job that fails. */
  predicate Faulty(t: Step) {
    t.Worker? && (t.step.Crash? || t.step == AddJob(false))
  }

  ghost predicate Faultless(ts: seq<Step>) {
    forall k :: 0 <= k < |ts| ==> !Faulty(ts[k])
  }

  /** A run one step longer. */
  lemma Grow(c: Config, r: Run, t: Step) returns (longer: Run)
    requires r.states != [] && IsRun(c, r) && Can(c, Last(r), t)
    ensures longer.states != [] && IsRun(c, longer) && Last(longer) == Do(c, Last(r), t)
    ensures longer.states == r.states + [Do(c, Last(r), t)]
    ensures longer.steps == r.steps + [t]
  {
    longer := Run(r.states + [Do(c, Last(r), t)], r.steps + [t]);
    hide Do, Can;
  }

  ghost predicate Reaches(c: Config, s: State, ts: seq<Step>, t: State)
    decreases |ts|
  {
    if ts == [] then s == t else Can(c, s, ts[0]) && Reaches(c, Do(c, s, ts[0]), ts[1..], t)
  }

  /** A run as many steps longer. */
  lemma GrowAll(c: Config, r: Run, ts: seq<Step>, s: State) returns (longer: Run)
    requires r.states != [] && IsRun(c, r) && Reaches(c, Last(r), ts, s)
    ensures longer.states != [] && IsRun(c, longer) && Last(longer) == s
    ensures r.states <= longer.states && longer.steps == r.steps + ts
    decreases |ts|
  {
    longer := r;
    if ts != [] {
      var next := Grow(c, r, ts[0]);
      hide Do, Can, IsRun;
      longer := GrowAll(c, next, ts[1..], s);
      assert r.steps + ts == r.steps + [ts[0]] + ts[1..];
    }
  }

  lemma ReachOne(c: Config, s: State, t: Step, s': State)
    requires Can(c, s, t) && Do(c, s, t) == s'
    ensures Reaches(c, s, [t], s')
  {
    hide Do, Can;
    assert [t][1..] == [];
  }

  lemma {:induction false} ReachBoth(c: Config, s: State, ts: seq<Step>, m: State, us: seq<Step>, t: State)
    requires Reaches(c, s, ts, m) && Reaches(c, m, us, t)
    ensures Reaches(c, s, ts + us, t)
    decreases |ts|
  {
    hide Do, Can;
    if ts == [] {
      assert ts + us == us;
    } else {
      ReachBoth(c, Do(c, s, ts[0]), ts[1..], m, us, t);
      assert (ts + us)[1..] == ts[1..] + us;
    }
  }

  /** Steps so far, and one more. */
  lemma Then(c: Config, s: State, ts: seq<Step>, m: State, t: Step, s': State) returns (us: seq<Step>)
    requires Reaches(c, s, ts, m) && Can(c, m, t) && Do(c, m, t) == s' && Faultless(ts) && !Faulty(t)
    ensures us == ts + [t] && Reaches(c, s, us, s') && Faultless(us)
  {
    ReachOne(c, m, t, s');
    hide Do, Can, Reaches, Faulty;
    ReachBoth(c, s, ts, m, [t], s');
    us := ts + [t];
  }

  lemma ThenAll(c: Config, s: State, ts: seq<Step>, m: State, us: seq<Step>, s': State) returns (vs: seq<Step>)
    requires Reaches(c, s, ts, m) && Reaches(c, m, us, s') && Faultless(ts) && Faultless(us)
    ensures vs == ts + us && Reaches(c, s, vs, s') && Faultless(vs)
  {
    hide Reaches, Faulty;
    ReachBoth(c, s, ts, m, us, s');
    vs := ts + us;
  }

  // ── A message, up to the decision what to do with it ────────────────────

  const BOT := Bot(true, true, true, true, true)

  /** A signal, the size of its order and the client order id it will get. */
  datatype Plan = Plan(key: Key, side: Side, requested: Option<real>, cid: nat)

  /** The message hidden for the visibility timeout, and the worker at this phase. */
  function Working(c: Config, s: State, w: nat, mid: nat, p: Phase): State
    requires mid in s.queue && w < |s.workers|
  {
    s.(queue := s.queue[mid := s.queue[mid].(visibleAt := s.now + c.visibility)], workers := s.workers[w := p])
  }

  /** The signal can be traded: its bot is on and not blocked, and it has no trade yet. */
  ghost predicate Tradable(c: Config, s: State, w: nat, o: Plan) {
    && w < |s.workers| && s.workers[w] == Idle
    && o.key.bot in s.bots && s.bots[o.key.bot] == BOT
    && !HasKey(s.trades, o.key) && !BotBlocked(s, o.key.bot)
    && GatesOpen(BOT, o.side, LimitsOf(c, o.key.bot)) && WellSized(o.side, o.requested)
  }

  ghost predicate Delivered(s: State, mid: nat, o: Plan, approved: bool) {
    mid in s.queue && s.queue[mid] == Queued(Signal(o.key, o.side, approved), s.now)
  }

  lemma Taken(c: Config, s: State, w: nat, mid: nat, o: Plan, approved: bool) returns (ts: seq<Step>)
    requires Tradable(c, s, w, o) && Delivered(s, mid, o, approved)
    ensures Reaches(c, s, ts, Working(c, s, w, mid, Loaded(mid, o.key, o.side, approved, BOT))) && Faultless(ts)
  {
    var s1 := Working(c, s, w, mid, Received(mid, Signal(o.key, o.side, approved)));
    var s2 := Working(c, s, w, mid, Loaded(mid, o.key, o.side, approved, BOT));
    ts := Then(c, s, [], s, Worker(w, Read(mid)), s1);
    ts := Then(c, s, ts, s1, Worker(w, LoadBot), s2);
  }

  lemma Checked(c: Config, s: State, w: nat, mid: nat, o: Plan, approved: bool) returns (ts: seq<Step>)
    requires Tradable(c, s, w, o) && Delivered(s, mid, o, approved)
    ensures Reaches(c, Working(c, s, w, mid, Loaded(mid, o.key, o.side, approved, BOT)), ts,
                    Working(c, s, w, mid, Clear(mid, o.key, o.side, approved, BOT))) && Faultless(ts)
  {
    var s2 := Working(c, s, w, mid, Loaded(mid, o.key, o.side, approved, BOT));
    var s3 := Working(c, s, w, mid, Fresh(mid, o.key, o.side, approved, BOT));
    var s4 := Working(c, s, w, mid, Clear(mid, o.key, o.side, approved, BOT));
    ts := Then(c, s2, [], s2, Worker(w, CheckTrade(false)), s3);
    assert !BotBlocked(s3, o.key.bot);
    ts := Then(c, s2, ts, s3, Worker(w, CheckUnresolved(false)), s4);
  }

  lemma Sized(c: Config, s: State, w: nat, mid: nat, o: Plan, approved: bool) returns (ts: seq<Step>)
    requires Tradable(c, s, w, o) && Delivered(s, mid, o, approved)
    ensures Reaches(c, Working(c, s, w, mid, Clear(mid, o.key, o.side, approved, BOT)), ts,
                    Working(c, s, w, mid, Ready(mid, o.key, o.side, approved, BOT, o.requested))) && Faultless(ts)
  {
    var s4 := Working(c, s, w, mid, Clear(mid, o.key, o.side, approved, BOT));
    var s5 := Working(c, s, w, mid, Ready(mid, o.key, o.side, approved, BOT, o.requested));
    ts := Then(c, s4, [], s4, Worker(w, Prepare(Size(o.requested))), s5);
  }

  lemma Prepared(c: Config, s: State, w: nat, mid: nat, o: Plan, approved: bool) returns (ts: seq<Step>)
    requires Tradable(c, s, w, o) && Delivered(s, mid, o, approved)
    ensures Reaches(c, s, ts, Working(c, s, w, mid, Ready(mid, o.key, o.side, approved, BOT, o.requested))) && Faultless(ts)
  {
    hide Reaches, Working, Faultless;
    var ts1 := Taken(c, s, w, mid, o, approved);
    var ts2 := Checked(c, s, w, mid, o, approved);
    var ts3 := Sized(c, s, w, mid, o, approved);
    var s2 := Working(c, s, w, mid, Loaded(mid, o.key, o.side, approved, BOT));
    var s4 := Working(c, s, w, mid, Clear(mid, o.key, o.side, approved, BOT));
    var s5 := Working(c, s, w, mid, Ready(mid, o.key, o.side, approved, BOT, o.requested));
    hide Tradable, Delivered;
    ts := ThenAll(c, s, ts1, s2, ts2, s4);
    ts := ThenAll(c, s, ts, s4, ts3, s5);
  }

  // ── A signal, up to its reserved row ────────────────────────────────────

  /** Nobody has heard of the signal, and its row would fit. */
  ghost predicate Unheard(c: Config, s: State, o: Plan, mid: nat) {
    && o.key !in s.logged && o.key !in s.proposals && o.key !in s.granted && mid !in s.queue
    && Reservable(s.trades, o.key, o.cid, o.side, o.requested, LimitsOf(c, o.key.bot), s.now)
  }

  function Logged(s: State, o: Plan): State {
    s.(logged := s.logged[o.key := o.side])
  }

  function Proposed(s: State, o: Plan, decision: Decision): State {
    Logged(s, o).(proposals := s.proposals[o.key := Proposal(0, o.side, decision, s.now)])
  }

  function Mailed(s: State, mid: nat, o: Plan, approved: bool): State {
    s.(queue := s.queue[mid := Queued(Signal(o.key, o.side, approved), s.now)])
  }

  /** The approved message hidden, the row inserted, the worker holding it. */
  function RowHeld(c: Config, s: State, w: nat, o: Plan, mid: nat): State
    requires w < |s.workers|
  {
    Proposed(s, o, Approved).(
      queue := s.queue[mid := Queued(Signal(o.key, o.side, true), s.now + c.visibility)],
      trades := s.trades + [NewTrade(o.key, o.cid, o.side, if o.side == Buy then o.requested else None, s.now)],
      workers := s.workers[w := Holding(mid, |s.trades|, o.cid)])
  }

  lemma ToReady(c: Config, s: State, w: nat, o: Plan, mid: nat) returns (ts: seq<Step>)
    requires Tradable(c, s, w, o) && Unheard(c, s, o, mid)
    ensures Reaches(c, s, ts, Working(c, Mailed(Logged(s, o), mid, o, false), w, mid,
                                      Ready(mid, o.key, o.side, false, BOT, o.requested))) && Faultless(ts)
  {
    var s1 := Logged(s, o);
    var s2 := Mailed(s1, mid, o, false);
    ts := Then(c, s, [], s, World(LogSignal(o.key, o.side)), s1);
    ts := Then(c, s, ts, s1, World(EnqueueSignal(mid, o.key)), s2);
    assert !BotBlocked(s2, o.key.bot);
    hide Reaches, Working, Faultless;
    var us := Prepared(c, s2, w, mid, o, false);
    ts := ThenAll(c, s, ts, s2, us, Working(c, s2, w, mid, Ready(mid, o.key, o.side, false, BOT, o.requested)));
  }

  /** The worker after its proposal is written. */
  function Offered(c: Config, s: State, w: nat, o: Plan, mid: nat): State
    requires w < |s.workers|
  {
    Mailed(Proposed(s, o, Undecided), mid, o, false).(
      queue := s.queue[mid := Queued(Signal(o.key, o.side, false), s.now + c.visibility)],
      workers := s.workers[w := Leaving(mid, true)])
  }

  lemma ToOffered(c: Config, s: State, w: nat, o: Plan, mid: nat, s3: State)
    requires w < |s.workers| && Unheard(c, s, o, mid)
    requires s3 == Working(c, Mailed(Logged(s, o), mid, o, false), w, mid, Ready(mid, o.key, o.side, false, BOT, o.requested))
    ensures Can(c, s3, Worker(w, ProposeOrder(0, s.now, true)))
    ensures Do(c, s3, Worker(w, ProposeOrder(0, s.now, true))) == Offered(c, s, w, o, mid)
  {
    var s4 := Offered(c, s, w, o, mid);
    assert s3.queue == s4.queue;
    assert s3.workers[w := Leaving(mid, true)] == s4.workers;
  }

  lemma OfferedLeaves(c: Config, s: State, w: nat, o: Plan, mid: nat)
    requires w < |s.workers| && s.workers[w] == Idle && mid !in s.queue
    ensures Can(c, Offered(c, s, w, o, mid), Worker(w, Leave(true)))
    ensures Do(c, Offered(c, s, w, o, mid), Worker(w, Leave(true))) == Proposed(s, o, Undecided)
  {
    var s4 := Offered(c, s, w, o, mid);
    assert s4.queue - {mid} == s.queue;
    assert s4.workers[w := Idle] == s.workers;
  }

  lemma ToProposed(c: Config, s: State, w: nat, o: Plan, mid: nat) returns (ts: seq<Step>)
    requires Tradable(c, s, w, o) && Unheard(c, s, o, mid)
    ensures Reaches(c, s, ts, Proposed(s, o, Undecided)) && Faultless(ts)
  {
    var s3 := Working(c, Mailed(Logged(s, o), mid, o, false), w, mid, Ready(mid, o.key, o.side, false, BOT, o.requested));
    ts := ToReady(c, s, w, o, mid);
    ToOffered(c, s, w, o, mid, s3);
    OfferedLeaves(c, s, w, o, mid);
    hide Tradable, Unheard, Reaches, Faultless, Can, Do, Working, Offered;
    ts := Then(c, s, ts, s3, Worker(w, ProposeOrder(0, s.now, true)), Offered(c, s, w, o, mid));
    ts := Then(c, s, ts, Offered(c, s, w, o, mid), Worker(w, Leave(true)), Proposed(s, o, Undecided));
  }

  lemma ToApproved(c: Config, s: State, w: nat, o: Plan, mid: nat) returns (ts: seq<Step>)
    requires Tradable(c, s, w, o) && Unheard(c, s, o, mid)
    ensures Reaches(c, s, ts, Mailed(Proposed(s, o, Approved), mid, o, true)) && Faultless(ts)
  {
    ts := ToProposed(c, s, w, o, mid);
    hide Tradable, Reaches, Faultless;
    var s5, s7 := Proposed(s, o, Undecided), Mailed(Proposed(s, o, Approved), mid, o, true);
    var s6 := Proposed(s, o, Approved).(granted := s.granted + {o.key});
    assert s5.proposals[o.key := s5.proposals[o.key].(decision := Approved)] == s6.proposals;
    ts := Then(c, s, ts, s5, World(Approve(o.key, 0)), s6);
    assert s6.granted - {o.key} == s.granted;
    ts := Then(c, s, ts, s6, World(SendApproved(mid, o.key)), s7);
  }

  /** A new signal becomes a reserved row in this worker's hands; nothing else changes. */
  lemma ToReserved(c: Config, s: State, w: nat, o: Plan, mid: nat) returns (ts: seq<Step>)
    requires Tradable(c, s, w, o) && Unheard(c, s, o, mid)
    ensures Reaches(c, s, ts, RowHeld(c, s, w, o, mid)) && Faultless(ts)
  {
    ts := ToApproved(c, s, w, o, mid);
    var s7 := Mailed(Proposed(s, o, Approved), mid, o, true);
    var s8 := Working(c, s7, w, mid, Ready(mid, o.key, o.side, true, BOT, o.requested));
    var s9 := RowHeld(c, s, w, o, mid);
    assert !BotBlocked(s7, o.key.bot);
    hide Reaches, Faultless;
    var us := Prepared(c, s7, w, mid, o, true);
    hide Tradable;
    ts := ThenAll(c, s, ts, s7, us, s8);
    ToHolding(c, s, w, o, mid, s8);
    ts := Then(c, s, ts, s8, Worker(w, ReserveTrade(o.cid, false)), s9);
  }

  lemma ToHolding(c: Config, s: State, w: nat, o: Plan, mid: nat, s8: State)
    requires w < |s.workers| && Unheard(c, s, o, mid)
    requires s8 == Working(c, Mailed(Proposed(s, o, Approved), mid, o, true), w, mid, Ready(mid, o.key, o.side, true, BOT, o.requested))
    ensures Can(c, s8, Worker(w, ReserveTrade(o.cid, false)))
    ensures Do(c, s8, Worker(w, ReserveTrade(o.cid, false))) == RowHeld(c, s, w, o, mid)
  {
    var s9 := RowHeld(c, s, w, o, mid);
    assert s8.queue == s9.queue;
    assert s8.workers[w := Holding(mid, |s.trades|, o.cid)] == s9.workers;
  }
}
