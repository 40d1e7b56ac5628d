/**
 The tables behind the trade pipeline and the statements run on them: trades,
 reconciliation jobs, proposals and the message queue. A trade's id is its
 position in the table; rows are never deleted.
 */
module TradeStore {
  import opened Basics

  datatype Side = Buy | Sell

  datatype TradeStatus = Pending | Submitted | Unknown | Filled | Cancelled | Failed

  datatype Key = Key(bot: nat, signal: nat)

  datatype Trade = Trade(
    key: Key,
    side: Side,
    requested: Option<real>,   // requested notional; NULL for exits
    status: TradeStatus,
    createdAt: nat,
    cid: nat,                  // client order id
    simulated: bool
  )

  /** The statuses the resolver still looks at. */
  predicate Stuck(status: TradeStatus) {
    status == Pending || status == Unknown
  }

  predicate Terminal(status: TradeStatus) {
    status in {Filled, Cancelled, Failed}
  }

  predicate Reserving(status: TradeStatus) {
    status in {Pending, Submitted, Unknown, Filled}
  }

  const DAY: nat := 86400

  function DayStart(now: nat): nat {
    now / DAY * DAY
  }

  ghost predicate HasKey(trades: seq<Trade>, key: Key) {
    exists i :: 0 <= i < |trades| && trades[i].key == key
  }

  ghost predicate HasCid(trades: seq<Trade>, cid: nat) {
    exists i :: 0 <= i < |trades| && trades[i].cid == cid
  }

  /** The two UNIQUE constraints. */
  ghost predicate Unique(trades: seq<Trade>) {
    && (forall i, j :: 0 <= i < j < |trades| ==> trades[i].key != trades[j].key)
    && (forall i, j :: 0 <= i < j < |trades| ==> trades[i].cid != trades[j].cid)
  }

  // ── Reservation ─────────────────────────────────────────────────────────

  /** A row's share of the day's reserved notional; NULL adds nothing. */
  function Weight(t: Trade, bot: nat, dayStart: nat): real {
    if t.key.bot == bot && Reserving(t.status) && t.createdAt >= dayStart && t.requested.Some? then t.requested.value else 0.0
  }

  function DaySum(trades: seq<Trade>, bot: nat, dayStart: nat): real {
    if trades == [] then 0.0
    else DaySum(trades[..|trades| - 1], bot, dayStart) + Weight(trades[|trades| - 1], bot, dayStart)
  }

  datatype Limits = Limits(maxOrder: Option<real>, dailyCap: Option<real>)

  datatype Rejection = InvalidInput | PerOrderMax | DailyCapReached | DuplicateSignal

  datatype Outcome = Reserved(id: nat) | Rejected(reason: Rejection)

  function NewTrade(key: Key, cid: nat, side: Side, requested: Option<real>, now: nat): Trade {
    Trade(key, side, requested, Pending, now, cid, false)
  }

  ghost function Reserve(trades: seq<Trade>, key: Key, cid: nat, side: Side, requested: Option<real>, limits: Limits, now: nat): Outcome {
    if requested.None? || limits.maxOrder.None? || limits.dailyCap.None? then Rejected(InvalidInput)
    else if requested.value > limits.maxOrder.value then Rejected(PerOrderMax)
    else if DaySum(trades, key.bot, DayStart(now)) + requested.value > limits.dailyCap.value then Rejected(DailyCapReached)
    else if HasKey(trades, key) || HasCid(trades, cid) then Rejected(DuplicateSignal)
    else Reserved(|trades|)
  }

  /** The pending row goes in: under the caps for a buy, the UNIQUE constraints alone for an exit. */
  ghost predicate Reservable(trades: seq<Trade>, key: Key, cid: nat, side: Side, requested: Option<real>, limits: Limits, now: nat) {
    if side == Buy then Reserve(trades, key, cid, side, requested, limits, now).Reserved? else !HasKey(trades, key) && !HasCid(trades, cid)
  }

  /** A plain insert under the UNIQUE constraints. */
  ghost function Inserted(trades: seq<Trade>, t: Trade): seq<Trade> {
    if HasKey(trades, t.key) || HasCid(trades, t.cid) then trades else trades + [t]
  }

  function WithStatus(trades: seq<Trade>, id: nat, status: TradeStatus): (updated: seq<Trade>)
    ensures |updated| == |trades|
  {
    if id < |trades| then trades[id := trades[id].(status := status)] else trades
  }

  // ── Jobs, proposals, queue ──────────────────────────────────────────────

  datatype JobStatus = JobPending | JobResolved | JobFailed

  function PutJob(jobs: map<nat, JobStatus>, id: nat): map<nat, JobStatus> {
    if id in jobs then jobs else jobs[id := JobPending]
  }

  predicate JobOpen(jobs: map<nat, JobStatus>, id: nat) {
    id in jobs && jobs[id] == JobPending
  }

  function CloseJob(jobs: map<nat, JobStatus>, id: nat, status: JobStatus): map<nat, JobStatus> {
    if JobOpen(jobs, id) then jobs[id := status] else jobs
  }

  datatype Decision = Undecided | Approved | Declined | Expired

  datatype Proposal = Proposal(user: nat, side: Side, decision: Decision, expiresAt: nat)

  function Propose(proposals: map<Key, Proposal>, key: Key, p: Proposal): map<Key, Proposal> {
    if key in proposals then proposals else proposals[key := p]
  }

  predicate Decidable(proposals: map<Key, Proposal>, key: Key, user: nat) {
    key in proposals && proposals[key].user == user && proposals[key].decision == Undecided
  }

  function Decided(proposals: map<Key, Proposal>, key: Key, user: nat, d: Decision): map<Key, Proposal> {
    if Decidable(proposals, key, user) then proposals[key := proposals[key].(decision := d)] else proposals
  }

  predicate Overdue(p: Proposal, now: nat) {
    p.decision == Undecided && p.expiresAt < now
  }

  function ExpireAll(proposals: map<Key, Proposal>, now: nat): map<Key, Proposal> {
    map key | key in proposals :: if Overdue(proposals[key], now) then proposals[key].(decision := Expired) else proposals[key]
  }

  /** A queue message: anything without the frozen shape and version, or a signal. */
  datatype Message = Malformed | Signal(key: Key, side: Side, approved: bool)

  datatype Queued = Queued(message: Message, visibleAt: nat)

  // ── The statements as methods ───────────────────────────────────────────

  class Database {
    var trades: seq<Trade>
    var jobs: map<nat, JobStatus>
    var proposals: map<Key, Proposal>
    var queue: map<nat, Queued>
    var nextMessage: nat

    constructor ()
      ensures trades == [] && jobs == map[] && proposals == map[] && queue == map[] && nextMessage == 0
    {
      trades, jobs, proposals, queue, nextMessage := [], map[], map[], map[], 0;
    }

    method FindTrade(key: Key) returns (id: Option<nat>)
      ensures id.None? <==> !HasKey(trades, key)
      ensures id.Some? ==> id.value < |trades| && trades[id.value].key == key
    {
      var i := 0;
      while i < |trades|
        invariant 0 <= i <= |trades|
        invariant forall k :: 0 <= k < i ==> trades[k].key != key
      {
        if trades[i].key == key {
          return Some(i);
        }
        i := i + 1;
      }
      id := None;
    }

    method FindCid(cid: nat) returns (found: bool)
      ensures found <==> HasCid(trades, cid)
    {
      var i := 0;
      while i < |trades|
        invariant 0 <= i <= |trades|
        invariant forall k :: 0 <= k < i ==> trades[k].cid != cid
      {
        if trades[i].cid == cid {
          return true;
        }
        i := i + 1;
      }
      found := false;
    }

    /** The reservation: caps re-checked against the day's running sum, then the pending row. */
    method InsertPendingTradeAtomic(key: Key, cid: nat, side: Side, requested: Option<real>, limits: Limits, now: nat)
      returns (outcome: Outcome)
      modifies this`trades
      ensures outcome == Reserve(old(trades), key, cid, side, requested, limits, now)
      ensures trades == if outcome.Reserved? then old(trades) + [NewTrade(key, cid, side, requested, now)] else old(trades)
      ensures Unique(old(trades)) ==> Unique(trades)
    {
      if requested.None? || limits.maxOrder.None? || limits.dailyCap.None? {
        return Rejected(InvalidInput);
      }
      if requested.value > limits.maxOrder.value {
        return Rejected(PerOrderMax);
      }
      var dayStart := DayStart(now);
      var sum := 0.0;
      var i := 0;
      while i < |trades|
        invariant 0 <= i <= |trades|
        invariant sum == DaySum(trades[..i], key.bot, dayStart)
      {
        assert trades[..i + 1][..i] == trades[..i];
        var t := trades[i];
        if t.key.bot == key.bot && t.status in {Pending, Submitted, Unknown, Filled} && t.createdAt >= dayStart {
          sum := sum + (match t.requested case None => 0.0 case Some(v) => v);
        }
        i := i + 1;
      }
      assert trades[..i] == trades;
      if sum + requested.value > limits.dailyCap.value {
        return Rejected(DailyCapReached);
      }
      var byKey := FindTrade(key);
      var byCid := FindCid(cid);
      if byKey.Some? || byCid {
        return Rejected(DuplicateSignal);
      }
      outcome := Reserved(|trades|);
      trades := trades + [Trade(key, side, requested, Pending, now, cid, false)];
    }

    /** The insert behind exits and simulated fills; None on a UNIQUE conflict. */
    method InsertTrade(t: Trade) returns (id: Option<nat>)
      modifies this`trades
      ensures trades == Inserted(old(trades), t)
      ensures id == if HasKey(old(trades), t.key) || HasCid(old(trades), t.cid) then None else Some(|old(trades)|)
      ensures Unique(old(trades)) ==> Unique(trades)
    {
      var byKey := FindTrade(t.key);
      var byCid := FindCid(t.cid);
      if byKey.Some? || byCid {
        return None;
      }
      id := Some(|trades|);
      trades := trades + [t];
    }

    /** The pipeline's own update: by id, whatever the status is. */
    method UpdateTrade(id: nat, status: TradeStatus)
      modifies this`trades
      ensures trades == WithStatus(old(trades), id, status)
    {
      if id < |trades| {
        trades := trades[id := trades[id].(status := status)];
      }
    }

    /** The resolver's update: only a row still stuck. Returns the number of rows changed. */
    method UpdateStuckTrade(id: nat, status: TradeStatus) returns (rows: nat)
      modifies this`trades
      ensures rows == One(id < |old(trades)| && Stuck(old(trades)[id].status))
      ensures trades == if rows == 1 then WithStatus(old(trades), id, status) else old(trades)
    {
      rows := 0;
      if id < |trades| && (trades[id].status == Pending || trades[id].status == Unknown) {
        trades := trades[id := trades[id].(status := status)];
        rows := 1;
      }
    }

    /** How many rows of a bot are ambiguous: unknown, or pending since before the cutoff. */
    method CountUnresolved(bot: nat, cutoff: int) returns (n: nat)
      ensures n == |set i | 0 <= i < |trades| && Blocking(trades[i], bot, cutoff)|
      ensures n > 0 <==> exists i :: 0 <= i < |trades| && Blocking(trades[i], bot, cutoff)
    {
      n := 0;
      ghost var seen: set<int> := {};
      var i := 0;
      while i < |trades|
        invariant 0 <= i <= |trades|
        invariant seen == (set k | 0 <= k < i && Blocking(trades[k], bot, cutoff)) && n == |seen|
      {
        if Blocking(trades[i], bot, cutoff) {
          n := n + 1;
          seen := seen + {i};
        }
        i := i + 1;
      }
      if n > 0 {
        ghost var k :| k in seen;
        assert Blocking(trades[k], bot, cutoff);
      } else {
        assert forall k :: 0 <= k < |trades| && Blocking(trades[k], bot, cutoff) ==> k in seen;
      }
    }

    method UpsertJob(id: nat)
      modifies this`jobs
      ensures jobs == PutJob(old(jobs), id)
    {
      if id !in jobs {
        jobs := jobs[id := JobPending];
      }
    }

    /** Only while the job is still pending. Returns the number of rows changed. */
    method UpdateJob(id: nat, status: JobStatus) returns (rows: nat)
      modifies this`jobs
      ensures rows == One(JobOpen(old(jobs), id))
      ensures jobs == CloseJob(old(jobs), id, status)
    {
      rows := 0;
      if id in jobs && jobs[id] == JobPending {
        jobs := jobs[id := status];
        rows := 1;
      }
    }

    method InsertProposal(key: Key, p: Proposal)
      modifies this`proposals
      ensures proposals == Propose(old(proposals), key, p)
    {
      if key !in proposals {
        proposals := proposals[key := p];
      }
    }

    /** Approve or reject: only the owner's still-undecided proposal. Returns its side. */
    method DecideProposal(key: Key, user: nat, d: Decision) returns (side: Option<Side>)
      modifies this`proposals
      ensures proposals == Decided(old(proposals), key, user, d)
      ensures side == if Decidable(old(proposals), key, user) then Some(old(proposals)[key].side) else None
    {
      side := None;
      if key in proposals && proposals[key].user == user && proposals[key].decision == Undecided {
        side := Some(proposals[key].side);
        proposals := proposals[key := proposals[key].(decision := d)];
      }
    }

    method ExpireProposals(now: nat)
      modifies this`proposals
      ensures proposals == ExpireAll(old(proposals), now)
    {
      proposals := map key | key in proposals ::
        if proposals[key].decision == Undecided && proposals[key].expiresAt < now then proposals[key].(decision := Expired) else proposals[key];
    }

    method Send(message: Message, now: nat) returns (id: nat)
      modifies this`queue, this`nextMessage
      ensures id == old(nextMessage) && nextMessage == old(nextMessage) + 1
      ensures queue == old(queue)[id := Queued(message, now)]
    {
      id := nextMessage;
      queue := queue[id := Queued(message, now)];
      nextMessage := nextMessage + 1;
    }

    /** One visible message, hidden from other readers for the visibility timeout. */
    method Read(now: nat, visibility: nat) returns (id: Option<nat>)
      modifies this`queue
      ensures id.None? ==> queue == old(queue) && forall m :: m in queue ==> queue[m].visibleAt > now
      ensures id.Some? ==>
        && id.value in old(queue) && old(queue)[id.value].visibleAt <= now
        && queue == old(queue)[id.value := old(queue)[id.value].(visibleAt := now + visibility)]
    {
      var visible := set m | m in queue && queue[m].visibleAt <= now;
      if visible == {} {
        assert forall m :: m in queue ==> m !in visible;
        return None;
      }
      var m :| m in visible;
      queue := queue[m := queue[m].(visibleAt := now + visibility)];
      id := Some(m);
    }

    method Delete(id: nat)
      modifies this`queue
      ensures queue == old(queue) - {id}
    {
      queue := queue - {id};
    }
  }

  predicate Blocking(t: Trade, bot: nat, cutoff: int) {
    t.key.bot == bot && (t.status == Unknown || (t.status == Pending && t.createdAt < cutoff))
  }
}
