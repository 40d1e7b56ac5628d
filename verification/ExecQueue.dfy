/**
 The execution service's durable queue: one row per signal, claimed under a
 lease, acknowledged or failed by its claimer, recovered by a sweeper and paused
 by the kill switch. A row's id is its position in the table.
 */
module ExecQueue {

  import opened Basics

  datatype Status = Queued | Processing | Held | Done | Dead

  datatype Item = Item(
    signal: nat,
    bot: nat,
    status: Status,
    attempts: nat,
    maxAttempts: nat,
    visibleAt: nat,
    lockedBy: Option<nat>,
    lockedAt: nat
  )

  const DEFAULT_MAX_ATTEMPTS: nat := 5

  // ── What each statement does to the table ───────────────────────────────

  ghost predicate HasSignal(items: seq<Item>, signal: nat) {
    exists i :: 0 <= i < |items| && items[i].signal == signal
  }

  ghost predicate UniqueSignals(items: seq<Item>) {
    forall i, j :: 0 <= i < j < |items| ==> items[i].signal != items[j].signal
  }

  function NewItem(signal: nat, bot: nat, now: nat): Item {
    Item(signal, bot, Queued, 0, DEFAULT_MAX_ATTEMPTS, now, None, 0)
  }

  predicate Claimable(item: Item, now: nat) {
    item.status == Queued && item.visibleAt <= now
  }

  function Claim(items: seq<Item>, id: nat, worker: nat, now: nat): seq<Item>
    requires id < |items|
  {
    items[id := items[id].(status := Processing, lockedBy := Some(worker), lockedAt := now)]
  }

  /** Does this worker hold the lease on the row? */
  predicate Holds(items: seq<Item>, id: nat, worker: nat) {
    id < |items| && items[id].status == Processing && items[id].lockedBy == Some(worker)
  }

  function Ack(items: seq<Item>, id: nat, worker: nat): seq<Item> {
    if Holds(items, id, worker) then items[id := items[id].(status := Done)] else items
  }

  /** One more attempt used up: dead at the cap, queued again below it. */
  function Failed(item: Item, visibleAt: nat): Item {
    item.(attempts := item.attempts + 1,
          status := if item.attempts + 1 >= item.maxAttempts then Dead else Queued,
          visibleAt := visibleAt, lockedBy := None, lockedAt := 0)
  }

  function Nack(items: seq<Item>, id: nat, worker: nat, visibleAt: nat): seq<Item> {
    if Holds(items, id, worker) then items[id := Failed(items[id], visibleAt)] else items
  }

  predicate Stale(item: Item, now: nat, stale: nat) {
    item.status == Processing && item.lockedAt + stale < now
  }

  function Sweep(items: seq<Item>, now: nat, stale: nat): (swept: seq<Item>)
    ensures |swept| == |items|
  {
    seq(|items|, i requires 0 <= i < |items| => if Stale(items[i], now, stale) then Failed(items[i], now) else items[i])
  }

  function Hold(items: seq<Item>): (held: seq<Item>)
    ensures |held| == |items|
  {
    seq(|items|, i requires 0 <= i < |items| => if items[i].status == Queued then items[i].(status := Held) else items[i])
  }

  function Release(items: seq<Item>, now: nat): (released: seq<Item>)
    ensures |released| == |items|
  {
    seq(|items|, i requires 0 <= i < |items| =>
      if items[i].status == Held then items[i].(status := Queued, visibleAt := now) else items[i])
  }

  function CountStatus(items: seq<Item>, status: Status): nat {
    if items == [] then 0
    else CountStatus(items[..|items| - 1], status) + (if items[|items| - 1].status == status then 1 else 0)
  }

  /** Every row is in exactly one of the five states. */
  lemma {:induction false} StatusesPartition(items: seq<Item>)
    ensures CountStatus(items, Queued) + CountStatus(items, Processing) + CountStatus(items, Held)
          + CountStatus(items, Done) + CountStatus(items, Dead) == |items|
  {
    if items != [] {
      StatusesPartition(items[..|items| - 1]);
    }
  }

  /** Holding and then releasing restores every status; only the time a row became visible can differ. */
  lemma HoldThenRelease(items: seq<Item>, now: nat, i: nat)
    requires i < |items|
    requires forall k :: 0 <= k < |items| ==> items[k].status != Held
    ensures Release(Hold(items), now)[i].status == items[i].status
    ensures Release(Hold(items), now)[i] == items[i].(visibleAt := if items[i].status == Queued then now else items[i].visibleAt)
  {
    assert Hold(items)[i] == if items[i].status == Queued then items[i].(status := Held) else items[i];
  }

  /** A sweep leaves a live lease alone, and every row that is not leased; a lease that ran out counts as a failure. */
  lemma SweepFailsExpired(items: seq<Item>, now: nat, stale: nat, i: nat)
    requires i < |items|
    ensures var was, item := items[i], Sweep(items, now, stale)[i];
      if was.status == Processing && now > was.lockedAt + stale then
        && item.attempts == was.attempts + 1 && item.status == (if item.attempts < was.maxAttempts then Queued else Dead)
        && item.lockedBy == None && item.visibleAt == now
        && item.signal == was.signal && item.bot == was.bot && item.maxAttempts == was.maxAttempts
      else item == was
  {}

  /** A claim takes a queued row whose time has come, leases it from now, and changes no other row. */
  lemma ClaimLeases(items: seq<Item>, id: nat, worker: nat, now: nat)
    requires id < |items| && Claimable(items[id], now)
    ensures items[id].status == Queued && items[id].visibleAt <= now
    ensures var claimed := Claim(items, id, worker, now);
      && |claimed| == |items| && (forall k :: 0 <= k < |items| && k != id ==> claimed[k] == items[k])
      && claimed[id].status == Processing && claimed[id].lockedBy == Some(worker) && claimed[id].lockedAt == now
      && claimed[id].attempts == items[id].attempts && claimed[id].maxAttempts == items[id].maxAttempts
      && claimed[id].signal == items[id].signal && claimed[id].bot == items[id].bot
      && forall later :: !Claimable(claimed[id], later)
  {}

  /** A failure reported by the holder of the lease uses up an attempt; the row waits for its delay, or is dead at its limit. */
  lemma RetryWaits(items: seq<Item>, id: nat, worker: nat, visibleAt: nat, later: nat)
    ensures var nacked := Nack(items, id, worker, visibleAt);
      if id < |items| && items[id].status == Processing && items[id].lockedBy == Some(worker) then
        && |nacked| == |items| && (forall k :: 0 <= k < |items| && k != id ==> nacked[k] == items[k])
        && nacked[id].attempts == items[id].attempts + 1 && nacked[id].lockedBy == None
        && nacked[id].signal == items[id].signal && nacked[id].bot == items[id].bot && nacked[id].maxAttempts == items[id].maxAttempts
        && (nacked[id].status == Dead || nacked[id].status == Queued)
        && (nacked[id].status == Dead <==> nacked[id].attempts >= items[id].maxAttempts)
        && (Claimable(nacked[id], later) <==> nacked[id].attempts < items[id].maxAttempts && later >= visibleAt)
      else nacked == items
  {}

  /** An acknowledgement by the holder of the lease ends the row for good; by anyone else it changes nothing. */
  lemma AckEnds(items: seq<Item>, id: nat, worker: nat, now: nat, stale: nat)
    ensures var acked := Ack(items, id, worker);
      if id < |items| && items[id].status == Processing && items[id].lockedBy == Some(worker) then
        && acked == items[id := items[id].(status := Done)]
        && Sweep(acked, now, stale)[id] == Hold(acked)[id] == Release(acked, now)[id] == acked[id] && !Claimable(acked[id], now)
      else acked == items
  {}

  /** The row after n failures. */
  function AfterFailures(item: Item, n: nat, visibleAt: nat): Item {
    if n == 0 then item else Failed(AfterFailures(item, n - 1, visibleAt), visibleAt)
  }

  /** A new row can be claimed at once and is dead from the fifth failure on. */
  lemma {:induction false} DeadAtTheFifth(signal: nat, bot: nat, now: nat, n: nat, visibleAt: nat)
    ensures Claimable(NewItem(signal, bot, now), now)
    ensures NewItem(signal, bot, now).signal == signal && NewItem(signal, bot, now).bot == bot && NewItem(signal, bot, now).visibleAt == now
    ensures var item := AfterFailures(NewItem(signal, bot, now), n, visibleAt);
      item.attempts == n && item.maxAttempts == 5 && item.status == if n < 5 then Queued else Dead
  {
    if n > 0 {
      DeadAtTheFifth(signal, bot, now, n - 1, visibleAt);
    }
  }

  /** Holding stops exactly the queued rows from being claimed, releasing makes exactly the held ones claimable from now on. */
  lemma HoldAndRelease(items: seq<Item>, now: nat, i: nat)
    requires i < |items|
    ensures Hold(items)[i] == if items[i].status == Queued then items[i].(status := Held) else items[i]
    ensures forall later :: !Claimable(Hold(items)[i], later)
    ensures items[i].status == Held ==> Claimable(Release(items, now)[i], now)
    ensures items[i].status != Held ==> Release(items, now)[i] == items[i]
  {}

  // ── The table as the program changes it ─────────────────────────────────

  class Queue {
    var items: seq<Item>

    constructor ()
      ensures items == []
    {
      items := [];
    }

    method Enqueue(signal: nat, bot: nat, now: nat) returns (id: Option<nat>)
      modifies this
      ensures HasSignal(old(items), signal) ==> id == None && items == old(items)
      ensures !HasSignal(old(items), signal) ==> id == Some(|old(items)|) && items == old(items) + [NewItem(signal, bot, now)]
      ensures UniqueSignals(old(items)) ==> UniqueSignals(items)
    {
      var i := 0;
      while i < |items|
        invariant 0 <= i <= |items| && items == old(items)
        invariant forall k :: 0 <= k < i ==> items[k].signal != signal
      {
        if items[i].signal == signal {
          return None;
        }
        i := i + 1;
      }
      id := Some(|items|);
      items := items + [NewItem(signal, bot, now)];
    }

    /** Claims the oldest claimable row. */
    method Dequeue(worker: nat, now: nat) returns (id: Option<nat>)
      modifies this
      ensures id.None? ==> items == old(items) && forall k :: 0 <= k < |items| ==> !Claimable(items[k], now)
      ensures id.Some? ==>
        && id.value < |old(items)| && Claimable(old(items)[id.value], now)
        && (forall k :: 0 <= k < id.value ==> !Claimable(old(items)[k], now))
        && items == Claim(old(items), id.value, worker, now)
    {
      var i := 0;
      while i < |items|
        invariant 0 <= i <= |items| && items == old(items)
        invariant forall k :: 0 <= k < i ==> !Claimable(items[k], now)
      {
        if Claimable(items[i], now) {
          items := items[i := items[i].(status := Processing, lockedBy := Some(worker), lockedAt := now)];
          return Some(i);
        }
        i := i + 1;
      }
      id := None;
    }

    /** Done, if this worker still holds the lease. */
    method AckItem(id: nat, worker: nat) returns (ok: bool)
      modifies this
      ensures items == Ack(old(items), id, worker)
      ensures ok <==> Holds(old(items), id, worker)
    {
      ok := id < |items| && items[id].status == Processing && items[id].lockedBy == Some(worker);
      if ok {
        items := items[id := items[id].(status := Done)];
      }
    }

    /** One failure reported: the row's new status, or None when the lease is no longer this worker's. */
    method NackItem(id: nat, worker: nat, delay: nat, now: nat) returns (status: Option<Status>)
      modifies this
      ensures items == Nack(old(items), id, worker, now + delay)
      ensures status.None? <==> !Holds(old(items), id, worker)
      ensures status.Some? ==> status.value == items[id].status && status.value in {Queued, Dead}
    {
      status := None;
      if id < |items| && items[id].status == Processing && items[id].lockedBy == Some(worker) {
        var item := items[id];
        var next := if item.attempts + 1 >= item.maxAttempts then Dead else Queued;
        items := items[id := item.(attempts := item.attempts + 1, status := next,
                                   visibleAt := now + delay, lockedBy := None, lockedAt := 0)];
        status := Some(next);
      }
    }

    /** Fails every row whose lease ran out, on its dead worker's behalf. */
    method SweepAll(now: nat, stale: nat) returns (swept: nat)
      modifies this
      ensures items == Sweep(old(items), now, stale)
      ensures swept == |set i | 0 <= i < |old(items)| && Stale(old(items)[i], now, stale)|
    {
      swept := 0;
      ghost var seen: set<int> := {};
      var i := 0;
      while i < |items|
        invariant 0 <= i <= |items| == |old(items)|
        invariant forall k :: 0 <= k < i ==> items[k] == Sweep(old(items), now, stale)[k]
        invariant forall k :: i <= k < |items| ==> items[k] == old(items)[k]
        invariant seen == set k | 0 <= k < i && Stale(old(items)[k], now, stale)
        invariant swept == |seen|
      {
        if Stale(items[i], now, stale) {
          items := items[i := Failed(items[i], now)];
          seen := seen + {i};
          swept := swept + 1;
        }
        i := i + 1;
      }
    }

    method HoldAll() returns (held: nat)
      modifies this
      ensures items == Hold(old(items))
      ensures held == CountStatus(old(items), Queued)
    {
      held := 0;
      var i := 0;
      while i < |items|
        invariant 0 <= i <= |items| == |old(items)|
        invariant forall k :: 0 <= k < i ==> items[k] == Hold(old(items))[k]
        invariant forall k :: i <= k < |items| ==> items[k] == old(items)[k]
        invariant held == CountStatus(old(items)[..i], Queued)
      {
        assert old(items)[..i + 1][..i] == old(items)[..i];
        if items[i].status == Queued {
          items := items[i := items[i].(status := Held)];
          held := held + 1;
        }
        i := i + 1;
      }
      assert old(items)[..i] == old(items);
    }

    method ReleaseHeld(now: nat) returns (released: nat)
      modifies this
      ensures items == Release(old(items), now)
      ensures released == CountStatus(old(items), Held)
    {
      released := 0;
      var i := 0;
      while i < |items|
        invariant 0 <= i <= |items| == |old(items)|
        invariant forall k :: 0 <= k < i ==> items[k] == Release(old(items), now)[k]
        invariant forall k :: i <= k < |items| ==> items[k] == old(items)[k]
        invariant released == CountStatus(old(items)[..i], Held)
      {
        assert old(items)[..i + 1][..i] == old(items)[..i];
        if items[i].status == Held {
          items := items[i := items[i].(status := Queued, visibleAt := now)];
          released := released + 1;
        }
        i := i + 1;
      }
      assert old(items)[..i] == old(items);
    }

    /** The counters of the status view; they add up to the number of rows. */
    method Depth() returns (queued: nat, processing: nat, held: nat, done: nat, dead: nat)
      ensures queued == CountStatus(items, Queued) && processing == CountStatus(items, Processing)
      ensures held == CountStatus(items, Held) && done == CountStatus(items, Done) && dead == CountStatus(items, Dead)
      ensures queued + processing + held + done + dead == |items|
    {
      queued, processing, held, done, dead := 0, 0, 0, 0, 0;
      var i := 0;
      while i < |items|
        invariant 0 <= i <= |items|
        invariant queued == CountStatus(items[..i], Queued) && processing == CountStatus(items[..i], Processing)
        invariant held == CountStatus(items[..i], Held) && done == CountStatus(items[..i], Done) && dead == CountStatus(items[..i], Dead)
      {
        assert items[..i + 1][..i] == items[..i];
        match items[i].status {
          case Queued => queued := queued + 1;
          case Processing => processing := processing + 1;
          case Held => held := held + 1;
          case Done => done := done + 1;
          case Dead => dead := dead + 1;
        }
        i := i + 1;
      }
      assert items[..i] == items;
      StatusesPartition(items);
    }
  }
}
