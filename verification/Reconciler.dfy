/**
 The resolver of stuck trades as a program: guarded updates of trades and jobs, one
 trade's resolution, and the capped batch. The exchange's answers and the fate of
 each write are inputs. A resolver may act on a row it read earlier, so the status
 it saw and the status now in the table are kept apart.
 */
module Reconciler {
  import opened Basics
  import opened TradeStore


  /** What building the adapter and looking the order up came to. */
  datatype Answer = NoAdapter | AuthError | Transient | Absent | Reported(status: TradeStatus)

  /** Whether the trade update, the job update and the audit insert go through. */
  datatype Writes = Writes(trade: bool, job: bool, audit: bool)

  datatype Action =
    | ResolvedFilled
    | ResolvedCancelled
    | ResolvedFailed
    | LeftOpen
    | LeftUnknown
    | LeftTransient
    | JobFailedAuth
    | NoopNotStuck
    | NoopRace
    | JobUpdateFailed

  datatype Result = Result(id: nat, action: Action)

  datatype Tables = Tables(trades: seq<Trade>, jobs: map<nat, JobStatus>, audits: seq<nat>)

  // ── One trade ───────────────────────────────────────────────────────────

  predicate IsResolved(action: Action) {
    action in {ResolvedFilled, ResolvedCancelled, ResolvedFailed}
  }

  /** The final status an answer stands for, if it stands for one. */
  function Verdict(answer: Answer): Option<TradeStatus> {
    match answer
    case Absent => Some(Failed)
    case Reported(status) => if Terminal(status) then Some(status) else None
    case _ => None
  }

  function ActionFor(status: TradeStatus): Action
    requires Terminal(status)
  {
    match status
    case Filled => ResolvedFilled
    case Cancelled => ResolvedCancelled
    case Failed => ResolvedFailed
  }

  function StuckRow(t: Tables, id: nat): bool {
    id < |t.trades| && Stuck(t.trades[id].status)
  }

  function Finalized(t: Tables, id: nat, status: TradeStatus, w: Writes): (Tables, Action)
    requires Terminal(status)
  {
    if !w.trade || !StuckRow(t, id) then (t, NoopRace)
    else
      (Tables(
         WithStatus(t.trades, id, status),
         if w.job then CloseJob(t.jobs, id, JobResolved) else t.jobs,
         if w.audit then t.audits + [id] else t.audits),
       if w.job && JobOpen(t.jobs, id) then ActionFor(status) else JobUpdateFailed)
  }

  function Resolved(t: Tables, id: nat, seen: TradeStatus, answer: Answer, w: Writes): (Tables, Action) {
    if answer.NoAdapter? then (t, LeftTransient)
    else if !Stuck(seen) then (t, NoopNotStuck)
    else if answer.Transient? then (t, LeftTransient)
    else if answer.AuthError? then
      if w.job && JobOpen(t.jobs, id) then (t.(jobs := CloseJob(t.jobs, id, JobFailed)), JobFailedAuth) else (t, LeftTransient)
    else if Verdict(answer).Some? then Finalized(t, id, Verdict(answer).value, w)
    else (t, if answer.status == Submitted then LeftOpen else LeftUnknown)
  }

  // ── The batch ───────────────────────────────────────────────────────────

  predicate Old(t: Trade, cutoff: int) {
    Stuck(t.status) && t.createdAt < cutoff
  }

  /** The stuck rows older than the cutoff, among the first n. */
  function Eligible(trades: seq<Trade>, cutoff: int, n: nat): seq<nat>
    requires n <= |trades|
  {
    if n == 0 then [] else Eligible(trades, cutoff, n - 1) + (if Old(trades[n - 1], cutoff) then [n - 1] else [])
  }

  function AnswerFor(answers: map<nat, Answer>, id: nat): Answer {
    if id in answers then answers[id] else NoAdapter
  }

  function WritesFor(writes: map<nat, Writes>, id: nat): Writes {
    if id in writes then writes[id] else Writes(true, true, true)
  }

  function Swept(t: Tables, ids: seq<nat>, seen: seq<Trade>, answers: map<nat, Answer>, writes: map<nat, Writes>): Tables
    requires forall k :: 0 <= k < |ids| ==> ids[k] < |seen|
  {
    if ids == [] then t
    else
      var last := ids[|ids| - 1];
      Resolved(Swept(t, ids[..|ids| - 1], seen, answers, writes), last, seen[last].status, AnswerFor(answers, last), WritesFor(writes, last)).0
  }

  /** What the sweep reports, trade by trade. */
  function Results(t: Tables, ids: seq<nat>, seen: seq<Trade>, answers: map<nat, Answer>, writes: map<nat, Writes>): (results: seq<Result>)
    requires forall k :: 0 <= k < |ids| ==> ids[k] < |seen|
    ensures |results| == |ids| && forall k :: 0 <= k < |ids| ==> results[k].id == ids[k]
  {
    if ids == [] then []
    else
      var last := ids[|ids| - 1];
      var before := Swept(t, ids[..|ids| - 1], seen, answers, writes);
      Results(t, ids[..|ids| - 1], seen, answers, writes)
      + [Result(last, Resolved(before, last, seen[last].status, AnswerFor(answers, last), WritesFor(writes, last)).1)]
  }

  function Smaller(a: nat, b: nat): nat {
    if a < b then a else b
  }

  /** The first cap eligible rows. */
  function Batch(trades: seq<Trade>, cutoff: int, cap: nat): (ids: seq<nat>)
    ensures |ids| == Smaller(cap, |Eligible(trades, cutoff, |trades|)|)
    ensures forall k :: 0 <= k < |ids| ==> ids[k] < |trades| && Old(trades[ids[k]], cutoff)
  {
    var all := Eligible(trades, cutoff, |trades|);
    EligibleAre(trades, cutoff, |trades|);
    all[..Smaller(cap, |all|)]
  }

  lemma {:induction false} EligibleAre(trades: seq<Trade>, cutoff: int, n: nat)
    requires n <= |trades|
    ensures forall k :: 0 <= k < |Eligible(trades, cutoff, n)| ==>
      Eligible(trades, cutoff, n)[k] < n && Old(trades[Eligible(trades, cutoff, n)[k]], cutoff)
    ensures forall j, k :: 0 <= j < k < |Eligible(trades, cutoff, n)| ==> Eligible(trades, cutoff, n)[j] < Eligible(trades, cutoff, n)[k]
    ensures forall i :: 0 <= i < n && Old(trades[i], cutoff) ==> i in Eligible(trades, cutoff, n)
  {
    if n > 0 {
      EligibleAre(trades, cutoff, n - 1);
    }
  }

  class Resolver {
    const db: Database
    var audits: seq<nat>

    constructor (db: Database)
      ensures this.db == db && audits == []
    {
      this.db := db;
      audits := [];
    }

    function Now(): Tables
      reads this, db
    {
      Tables(db.trades, db.jobs, audits)
    }

    method UpdateTradeStatus(id: nat, status: TradeStatus, succeeds: bool) returns (rows: nat)
      modifies db`trades
      ensures rows == One(succeeds && StuckRow(old(Now()), id))
      ensures db.trades == if rows == 1 then WithStatus(old(db.trades), id, status) else old(db.trades)
    {
      rows := 0;
      if succeeds {
        rows := db.UpdateStuckTrade(id, status);
      }
    }

    method UpdateJob(id: nat, status: JobStatus, succeeds: bool) returns (rows: nat)
      modifies db`jobs
      ensures rows == One(succeeds && JobOpen(old(db.jobs), id))
      ensures db.jobs == if succeeds then CloseJob(old(db.jobs), id, status) else old(db.jobs)
    {
      rows := 0;
      if succeeds {
        rows := db.UpdateJob(id, status);
      }
    }

    method FinalizeTerminal(id: nat, status: TradeStatus, w: Writes) returns (action: Action)
      requires Terminal(status)
      modifies db`trades, db`jobs, this`audits
      ensures (Now(), action) == Finalized(old(Now()), id, status, w)
    {
      var rows := UpdateTradeStatus(id, status, w.trade);
      if rows == 0 {
        return NoopRace;
      }
      var jobRows := UpdateJob(id, JobResolved, w.job);
      if w.audit {
        audits := audits + [id];
      }
      if jobRows != 1 {
        return JobUpdateFailed;
      }
      action := ActionFor(status);
    }

    /** One trade, given as it was read. */
    method ResolveStuckTrade(id: nat, seen: TradeStatus, answer: Answer, w: Writes) returns (action: Action)
      requires !answer.NoAdapter?
      modifies db`trades, db`jobs, this`audits
      ensures (Now(), action) == Resolved(old(Now()), id, seen, answer, w)
    {
      if seen != Pending && seen != Unknown {
        return NoopNotStuck;
      }
      match answer {
        case AuthError =>
          var rows := UpdateJob(id, JobFailed, w.job);
          action := if rows == 1 then JobFailedAuth else LeftTransient;
        case Transient =>
          action := LeftTransient;
        case Absent =>
          action := FinalizeTerminal(id, Failed, w);
        case Reported(status) =>
          match status {
            case Filled => action := FinalizeTerminal(id, Filled, w);
            case Cancelled => action := FinalizeTerminal(id, Cancelled, w);
            case Failed => action := FinalizeTerminal(id, Failed, w);
            case Submitted => action := LeftOpen;
            case _ => action := LeftUnknown;
          }
      }
    }

    method SelectStuck(cutoff: int) returns (ids: seq<nat>)
      ensures ids == Eligible(db.trades, cutoff, |db.trades|)
    {
      ids := [];
      var i := 0;
      while i < |db.trades|
        invariant 0 <= i <= |db.trades|
        invariant ids == Eligible(db.trades, cutoff, i)
      {
        if Stuck(db.trades[i].status) && db.trades[i].createdAt < cutoff {
          ids := ids + [i];
        }
        i := i + 1;
      }
    }

    /** One trade of the batch; without an adapter it is left alone. */
    method ResolveOne(id: nat, seen: TradeStatus, answer: Answer, w: Writes) returns (result: Result)
      modifies db`trades, db`jobs, this`audits
      ensures (Now(), result.action) == Resolved(old(Now()), id, seen, answer, w) && result.id == id
    {
      if answer.NoAdapter? {
        return Result(id, LeftTransient);
      }
      var action := ResolveStuckTrade(id, seen, answer, w);
      result := Result(id, action);
    }

    method ResolveBatch(ids: seq<nat>, seen: seq<Trade>, answers: map<nat, Answer>, writes: map<nat, Writes>) returns (results: seq<Result>)
      requires forall k :: 0 <= k < |ids| ==> ids[k] < |seen|
      modifies db`trades, db`jobs, this`audits
      ensures Now() == Swept(old(Now()), ids, seen, answers, writes)
      ensures results == Results(old(Now()), ids, seen, answers, writes)
    {
      hide Resolved;
      results := [];
      var i := 0;
      while i < |ids|
        invariant 0 <= i <= |ids|
        invariant Now() == Swept(old(Now()), ids[..i], seen, answers, writes)
        invariant results == Results(old(Now()), ids[..i], seen, answers, writes)
      {
        assert ids[..i + 1][..i] == ids[..i];
        var result := ResolveOne(ids[i], seen[ids[i]].status, AnswerFor(answers, ids[i]), WritesFor(writes, ids[i]));
        results := results + [result];
        i := i + 1;
      }
      assert ids[..i] == ids;
    }

    /** Up to cap of the stuck trades older than the threshold, one after the other. */
    method ResolvePending(cap: nat, threshold: nat, now: nat, queryFails: bool, answers: map<nat, Answer>, writes: map<nat, Writes>)
      returns (results: seq<Result>)
      modifies db`trades, db`jobs, this`audits
      ensures queryFails ==> results == [] && Now() == old(Now())
      ensures !queryFails ==>
        var batch := Batch(old(db.trades), now - threshold, cap);
        && Now() == Swept(old(Now()), batch, old(db.trades), answers, writes)
        && results == Results(old(Now()), batch, old(db.trades), answers, writes)
    {
      hide Resolved, Swept, Results, Eligible;
      results := [];
      if queryFails {
        return;
      }
      var all := SelectStuck(now - threshold);
      EligibleAre(db.trades, now - threshold, |db.trades|);
      results := ResolveBatch(all[..Smaller(cap, |all|)], db.trades, answers, writes);
    }
  }

  // ── The runtime scan ────────────────────────────────────────────────────

  const MARGIN: nat := 15

  /** The configured threshold, but never below the visibility timeout plus the margin. */
  function EffectiveThreshold(threshold: nat, visibility: nat): (t: nat)
    ensures t >= threshold && t >= visibility + 15
    ensures t == threshold || t == visibility + 15
  {
    if threshold < visibility + MARGIN then visibility + MARGIN else threshold
  }

  /** A sweep leaves every row outside its batch alone. */
  lemma {:induction false} SweepLeavesOthers(t: Tables, ids: seq<nat>, seen: seq<Trade>, answers: map<nat, Answer>, writes: map<nat, Writes>, i: nat)
    requires forall k :: 0 <= k < |ids| ==> ids[k] < |seen|
    requires i < |t.trades| && i !in ids
    ensures var t' := Swept(t, ids, seen, answers, writes); |t'.trades| == |t.trades| && t'.trades[i] == t.trades[i]
  {
    if ids != [] {
      SweepLeavesOthers(t, ids[..|ids| - 1], seen, answers, writes, i);
      assert ids[|ids| - 1] in ids;
    }
  }

  class Scanner {
    const resolver: Resolver
    const enabled: bool
    const cap: nat
    const threshold: nat
    const visibility: nat
    var inFlight: bool
    var failures: nat

    constructor (resolver: Resolver, enabled: bool, cap: nat, threshold: nat, visibility: nat)
      ensures this.resolver == resolver && this.enabled == enabled && this.cap == cap
      ensures this.threshold == threshold && this.visibility == visibility && !inFlight && failures == 0
    {
      this.resolver, this.enabled, this.cap, this.threshold, this.visibility := resolver, enabled, cap, threshold, visibility;
      inFlight, failures := false, 0;
    }

    /**
     One scan, unless disabled or another one is under way. Only the first failure in
     a row is logged, and the recovery. No trade within the visibility timeout and the
     margin of its creation changes.
     */
    method ScanOnce(now: nat, throws: bool, queryFails: bool, answers: map<nat, Answer>, writes: map<nat, Writes>)
      returns (failureLogged: bool, recoveryLogged: bool)
      modifies this`inFlight, this`failures, resolver`audits, resolver.db`trades, resolver.db`jobs
      ensures !enabled || old(inFlight) || throws || queryFails ==> resolver.Now() == old(resolver.Now())
      ensures !enabled || old(inFlight) ==> inFlight == old(inFlight) && failures == old(failures) && !failureLogged && !recoveryLogged
      ensures enabled && !old(inFlight) ==> !inFlight && failures == if throws then old(failures) + 1 else 0
      ensures enabled && !old(inFlight) ==> failureLogged == (throws && old(failures) == 0) && recoveryLogged == (!throws && old(failures) > 0)
      ensures enabled && !old(inFlight) && !throws && !queryFails ==>
        var batch := Batch(old(resolver.db.trades), now - EffectiveThreshold(threshold, visibility), cap);
        resolver.Now() == Swept(old(resolver.Now()), batch, old(resolver.db.trades), answers, writes)
      ensures |resolver.db.trades| == |old(resolver.db.trades)|
      ensures forall i :: 0 <= i < |old(resolver.db.trades)| && old(resolver.db.trades)[i].createdAt + visibility + MARGIN >= now ==>
        resolver.db.trades[i] == old(resolver.db.trades)[i]
    {
      hide Swept, Resolved, Results;
      failureLogged, recoveryLogged := false, false;
      if !enabled || inFlight {
        return;
      }
      inFlight := true;
      if throws {
        failures := failures + 1;
        failureLogged := failures == 1;
      } else {
        var results := resolver.ResolvePending(cap, EffectiveThreshold(threshold, visibility), now, queryFails, answers, writes);
        if failures > 0 {
          recoveryLogged := true;
          failures := 0;
        }
      }
      inFlight := false;
      ghost var rows, t := old(resolver.db.trades), old(resolver.Now());
      ghost var batch := Batch(rows, now - EffectiveThreshold(threshold, visibility), cap);
      if !throws && !queryFails {
        forall i | 0 <= i < |rows| && i !in batch
          ensures |resolver.db.trades| == |rows| && resolver.db.trades[i] == rows[i]
        {
          SweepLeavesOthers(t, batch, rows, answers, writes, i);
        }
        SweepKeepsLength(t, batch, rows, answers, writes);
      }
    }
  }

  lemma {:induction false} SweepKeepsLength(t: Tables, ids: seq<nat>, seen: seq<Trade>, answers: map<nat, Answer>, writes: map<nat, Writes>)
    requires forall k :: 0 <= k < |ids| ==> ids[k] < |seen|
    ensures |Swept(t, ids, seen, answers, writes).trades| == |t.trades|
  {
    if ids != [] {
      SweepKeepsLength(t, ids[..|ids| - 1], seen, answers, writes);
    }
  }

  // ── What a result means ─────────────────────────────────────────────────

  /**
   A `resolved` answer: exactly one pending job moved, to resolved, and exactly the
   trade itself moved, from stuck to the status the action names. Everything else
   keeps its trade, unless the job of a settled trade could not be closed.
   */
  lemma ResolvedMeansOneJobMoved(t: Tables, id: nat, seen: TradeStatus, answer: Answer, w: Writes)
    ensures var (t', action) := Resolved(t, id, seen, answer, w);
      && (IsResolved(action) ==>
            && JobOpen(t.jobs, id) && t'.jobs == t.jobs[id := JobResolved]
            && StuckRow(t, id) && Verdict(answer).Some? && action == ActionFor(Verdict(answer).value)
            && t'.trades == t.trades[id := t.trades[id].(status := Verdict(answer).value)])
      && (action == JobUpdateFailed ==>
            && StuckRow(t, id) && Verdict(answer).Some? && t'.jobs == t.jobs
            && t'.trades == t.trades[id := t.trades[id].(status := Verdict(answer).value)])
      && (!IsResolved(action) && action != JobUpdateFailed ==> t'.trades == t.trades && t'.audits == t.audits)
      && (action == JobFailedAuth ==> JobOpen(t.jobs, id) && t'.jobs == t.jobs[id := JobFailed])
      && (!IsResolved(action) && action != JobFailedAuth ==> t'.jobs == t.jobs)
  {}

  /** An auth error fails the job of a trade seen stuck, if the job is open and the write goes through, and touches nothing else. */
  lemma AuthErrorFailsTheJob(t: Tables, id: nat, seen: TradeStatus, w: Writes)
    ensures Resolved(t, id, seen, AuthError, w) ==
      if seen !in {Pending, Unknown} then (t, NoopNotStuck)
      else if w.job && id in t.jobs && t.jobs[id] == JobPending then
        (Tables(t.trades, t.jobs[id := JobFailed], t.audits), JobFailedAuth)
      else (t, LeftTransient)
  {}

  /**
   An order not found, or found final, settles a trade that is still stuck, in the status it
   stands for: the row, its open job and an audit row, each if its write goes through.
   */
  lemma FinalAnswerSettles(t: Tables, id: nat, seen: TradeStatus, answer: Answer, w: Writes, status: TradeStatus)
    requires seen in {Pending, Unknown} && status in {Filled, Cancelled, Failed}
    requires answer == Reported(status) || (answer == Absent && status == Failed)
    ensures var (t', action) := Resolved(t, id, seen, answer, w);
      if w.trade && id < |t.trades| && t.trades[id].status in {Pending, Unknown} then
        && t'.trades == t.trades[id := t.trades[id].(status := status)]
        && t'.audits == (if w.audit then t.audits + [id] else t.audits)
        && if w.job && id in t.jobs && t.jobs[id] == JobPending then
             && t'.jobs == t.jobs[id := JobResolved]
             && action == (if status == Filled then ResolvedFilled else if status == Cancelled then ResolvedCancelled else ResolvedFailed)
           else t'.jobs == t.jobs && action == JobUpdateFailed
      else t' == t && action == NoopRace
  {}

  /** Every other answer leaves all tables as they are. */
  lemma OtherAnswersWait(t: Tables, id: nat, seen: TradeStatus, answer: Answer, w: Writes)
    requires seen in {Pending, Unknown}
    ensures answer in {NoAdapter, Transient} ==> Resolved(t, id, seen, answer, w) == (t, LeftTransient)
    ensures answer == Reported(Submitted) ==> Resolved(t, id, seen, answer, w) == (t, LeftOpen)
    ensures answer.Reported? && answer.status in {Pending, Unknown} ==> Resolved(t, id, seen, answer, w) == (t, LeftUnknown)
  {}

  /** The batch is the first cap of the rows that are pending or unknown and older than the cutoff, in the order of their ids. */
  lemma BatchIs(trades: seq<Trade>, cutoff: int, cap: nat, i: nat)
    requires i < |trades|
    ensures var ids := Batch(trades, cutoff, cap);
      && |ids| <= cap && (forall j, k :: 0 <= j < k < |ids| ==> ids[j] < ids[k])
      && (i in ids ==> trades[i].status in {Pending, Unknown} && trades[i].createdAt < cutoff)
      && (trades[i].status in {Pending, Unknown} && trades[i].createdAt < cutoff && i !in ids ==>
            |ids| == cap && forall k :: 0 <= k < cap ==> ids[k] < i)
  {
    EligibleAre(trades, cutoff, |trades|);
    var all := Eligible(trades, cutoff, |trades|);
    var ids := Batch(trades, cutoff, cap);
    hide Eligible;
    if Old(trades[i], cutoff) && i !in ids {
      var k :| 0 <= k < |all| && all[k] == i;
      assert forall j :: 0 <= j < |ids| ==> ids[j] == all[j] && ids[j] in ids;
    }
  }

  function JobsIn(jobs: map<nat, JobStatus>, status: JobStatus): set<nat> {
    set id | id in jobs && jobs[id] == status
  }

  function CountResolved(results: seq<Result>): nat {
    if results == [] then 0 else CountResolved(results[..|results| - 1]) + One(IsResolved(results[|results| - 1].action))
  }

  function CountAuthFailed(results: seq<Result>): nat {
    if results == [] then 0 else CountAuthFailed(results[..|results| - 1]) + One(results[|results| - 1].action == JobFailedAuth)
  }

  lemma JobMoves(jobs: map<nat, JobStatus>, id: nat, status: JobStatus)
    requires JobOpen(jobs, id) && status != JobPending
    ensures JobsIn(jobs[id := status], status) == JobsIn(jobs, status) + {id} && id !in JobsIn(jobs, status)
    ensures JobsIn(jobs[id := status], JobPending) == JobsIn(jobs, JobPending) - {id} && id in JobsIn(jobs, JobPending)
    ensures forall other :: other != JobPending && other != status ==> JobsIn(jobs[id := status], other) == JobsIn(jobs, other)
  {}

  /** Over a batch, as many jobs moved to resolved as results say so, and no pending job was lost otherwise. */
  lemma {:induction false} ResultsCountJobs(t: Tables, ids: seq<nat>, seen: seq<Trade>, answers: map<nat, Answer>, writes: map<nat, Writes>)
    requires forall k :: 0 <= k < |ids| ==> ids[k] < |seen|
    ensures var t', results := Swept(t, ids, seen, answers, writes), Results(t, ids, seen, answers, writes);
      && |JobsIn(t'.jobs, JobResolved)| == |JobsIn(t.jobs, JobResolved)| + CountResolved(results)
      && |JobsIn(t'.jobs, JobPending)| == |JobsIn(t.jobs, JobPending)| - CountResolved(results) - CountAuthFailed(results)
  {
    if ids != [] {
      var front, id := ids[..|ids| - 1], ids[|ids| - 1];
      ResultsCountJobs(t, front, seen, answers, writes);
      var before := Swept(t, front, seen, answers, writes);
      var results := Results(t, ids, seen, answers, writes);
      assert results[..|results| - 1] == Results(t, front, seen, answers, writes);
      ResolvedMeansOneJobMoved(before, id, seen[id].status, AnswerFor(answers, id), WritesFor(writes, id));
      if JobOpen(before.jobs, id) {
        JobMoves(before.jobs, id, JobResolved);
        JobMoves(before.jobs, id, JobFailed);
      }
      hide Resolved, JobsIn;
    }
  }

  // ── Progress ────────────────────────────────────────────────────────────

  /** Every trade of the batch gets an adapter and a final answer, and its update goes through. */
  ghost predicate AllAnswered(ids: seq<nat>, answers: map<nat, Answer>, writes: map<nat, Writes>) {
    forall k :: 0 <= k < |ids| ==> Verdict(AnswerFor(answers, ids[k])).Some? && WritesFor(writes, ids[k]).trade
  }

  lemma {:induction false} EligiblePrefix(trades: seq<Trade>, cutoff: int, m: nat, n: nat)
    requires m <= n <= |trades|
    ensures Eligible(trades, cutoff, m) <= Eligible(trades, cutoff, n)
    decreases n
  {
    if m < n {
      EligiblePrefix(trades, cutoff, m, n - 1);
    }
  }

  lemma NoneBelowFirst(trades: seq<Trade>, cutoff: int, m: nat, n: nat)
    requires m <= n <= |trades| && Eligible(trades, cutoff, n) != [] && Eligible(trades, cutoff, n)[0] >= m
    ensures Eligible(trades, cutoff, m) == []
  {
    EligibleAre(trades, cutoff, m);
    EligiblePrefix(trades, cutoff, m, n);
    hide Eligible;
  }

  /** Settling the first eligible row takes exactly that row off the list. */
  lemma {:induction false} SettlingFirst(trades: seq<Trade>, cutoff: int, id: nat, status: TradeStatus, n: nat)
    requires id < n <= |trades| && Terminal(status) && Eligible(trades, cutoff, id) == [] && Old(trades[id], cutoff)
    ensures Eligible(trades, cutoff, n) == [id] + Eligible(WithStatus(trades, id, status), cutoff, n)
  {
    if n == id + 1 {
      SameRows(trades, WithStatus(trades, id, status), cutoff, id);
    } else {
      SettlingFirst(trades, cutoff, id, status, n - 1);
    }
  }

  lemma {:induction false} SameRows(a: seq<Trade>, b: seq<Trade>, cutoff: int, n: nat)
    requires n <= |a| && n <= |b| && forall i :: 0 <= i < n ==> a[i] == b[i]
    ensures Eligible(a, cutoff, n) == Eligible(b, cutoff, n)
  {
    if n > 0 {
      SameRows(a, b, cutoff, n - 1);
    }
  }

  /** An answered trade that is still stuck is settled, and no other row changes. */
  lemma AnsweredSettles(t: Tables, id: nat, seen: TradeStatus, answer: Answer, w: Writes)
    requires Stuck(seen) && Verdict(answer).Some? && w.trade && StuckRow(t, id)
    ensures Resolved(t, id, seen, answer, w).0.trades == WithStatus(t.trades, id, Verdict(answer).value)
  {}

  /** One more answered trade takes the first of the list. */
  lemma SweepTakesOne(t: Tables, id: nat, seen: TradeStatus, cutoff: int, rest: seq<nat>, answer: Answer, w: Writes)
    requires Eligible(t.trades, cutoff, |t.trades|) == [id] + rest
    requires Stuck(seen) && Verdict(answer).Some? && w.trade
    ensures var t' := Resolved(t, id, seen, answer, w).0;
      |t'.trades| == |t.trades| && Eligible(t'.trades, cutoff, |t'.trades|) == rest
  {
    assert Terminal(Verdict(answer).value);
    hide Resolved, Eligible, Verdict;
    EligibleAre(t.trades, cutoff, |t.trades|);
    var list := Eligible(t.trades, cutoff, |t.trades|);
    assert list[0] == id;
    NoneBelowFirst(t.trades, cutoff, id, |t.trades|);
    AnsweredSettles(t, id, seen, answer, w);
    SettlingFirst(t.trades, cutoff, id, Verdict(answer).value, |t.trades|);
    var left := Eligible(WithStatus(t.trades, id, Verdict(answer).value), cutoff, |t.trades|);
    assert ([id] + rest)[1..] == rest && ([id] + left)[1..] == left;
  }

  lemma SweptLast(t: Tables, ids: seq<nat>, k: nat, seen: seq<Trade>, answers: map<nat, Answer>, writes: map<nat, Writes>)
    requires 0 < k <= |ids| && forall j :: 0 <= j < |ids| ==> ids[j] < |seen|
    ensures Swept(t, ids[..k], seen, answers, writes) ==
      Resolved(Swept(t, ids[..k - 1], seen, answers, writes), ids[k - 1], seen[ids[k - 1]].status,
        AnswerFor(answers, ids[k - 1]), WritesFor(writes, ids[k - 1])).0
  {
    hide Resolved;
    assert ids[..k][..k - 1] == ids[..k - 1];
  }

  lemma AnsweredPrefix(ids: seq<nat>, k: nat, answers: map<nat, Answer>, writes: map<nat, Writes>)
    requires 0 < k <= |ids| && AllAnswered(ids[..k], answers, writes)
    ensures AllAnswered(ids[..k - 1], answers, writes)
    ensures Verdict(AnswerFor(answers, ids[k - 1])).Some? && WritesFor(writes, ids[k - 1]).trade
  {
    hide Verdict;
    assert forall j :: 0 <= j < k - 1 ==> ids[..k - 1][j] == ids[..k][j];
    assert ids[..k][k - 1] == ids[k - 1];
  }

  /** After k answered trades, the list is the old one without its first k. */
  lemma {:induction false} SweepTakesPrefix(t: Tables, ids: seq<nat>, k: nat, cutoff: int, answers: map<nat, Answer>, writes: map<nat, Writes>)
    requires ids == Eligible(t.trades, cutoff, |t.trades|) && k <= |ids|
    requires forall j :: 0 <= j < |ids| ==> ids[j] < |t.trades| && Stuck(t.trades[ids[j]].status)
    requires AllAnswered(ids[..k], answers, writes)
    ensures var t' := Swept(t, ids[..k], t.trades, answers, writes);
      |t'.trades| == |t.trades| && Eligible(t'.trades, cutoff, |t'.trades|) == ids[k..]
  {
    hide Eligible, Resolved, Stuck, Verdict;
    if k == 0 {
      assert ids[..0] == [] && ids[0..] == ids;
    } else {
      AnsweredPrefix(ids, k, answers, writes);
      SweptLast(t, ids, k, t.trades, answers, writes);
      SweepTakesPrefix(t, ids, k - 1, cutoff, answers, writes);
      hide Swept, AllAnswered;
      var id := ids[k - 1];
      assert ids[k - 1..] == [id] + ids[k..];
      SweepTakesOne(Swept(t, ids[..k - 1], t.trades, answers, writes), id, t.trades[id].status, cutoff, ids[k..],
                    AnswerFor(answers, id), WritesFor(writes, id));
    }
  }

  /** If every trade gets an adapter and a final answer, a run shrinks n eligible trades by min(cap, n). */
  lemma BatchShrinks(t: Tables, cap: nat, cutoff: int, answers: map<nat, Answer>, writes: map<nat, Writes>)
    requires AllAnswered(Batch(t.trades, cutoff, cap), answers, writes)
    ensures var t' := Swept(t, Batch(t.trades, cutoff, cap), t.trades, answers, writes);
      var n := |Eligible(t.trades, cutoff, |t.trades|)|;
      && |t'.trades| == |t.trades|
      && |Eligible(t'.trades, cutoff, |t'.trades|)| == n - Smaller(cap, n)
  {
    var ids := Eligible(t.trades, cutoff, |t.trades|);
    EligibleAre(t.trades, cutoff, |t.trades|);
    SweepTakesPrefix(t, ids, Smaller(cap, |ids|), cutoff, answers, writes);
  }
}
