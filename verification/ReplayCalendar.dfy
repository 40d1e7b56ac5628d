/**
 The shared calendar of the replay engines: the sorted union of the assets' dates,
 and the bar an asset has on a day.
 */
module ReplayCalendar {
  import opened Basics

  ghost predicate Increasing(s: seq<int>) {
    forall i, j :: 0 <= i < j < |s| ==> s[i] < s[j]
  }

  /** A date put in its place; one already there is not repeated. */
  function Insert(s: seq<int>, d: int): seq<int> {
    if s == [] then [d]
    else if s[|s| - 1] < d then s + [d]
    else if s[|s| - 1] == d then s
    else Insert(s[..|s| - 1], d) + [s[|s| - 1]]
  }

  function InsertAll(s: seq<int>, dates: seq<int>): seq<int> {
    if dates == [] then s else Insert(InsertAll(s, dates[..|dates| - 1]), dates[|dates| - 1])
  }

  function Calendar(dates: seq<seq<int>>): seq<int> {
    if dates == [] then [] else InsertAll(Calendar(dates[..|dates| - 1]), dates[|dates| - 1])
  }

  /** The asset's bar on a date; of two with one date, the later. */
  function BarOn(dates: seq<int>, d: int): (j: Option<nat>)
    ensures j.Some? ==> j.value < |dates| && dates[j.value] == d
    ensures j.None? ==> d !in dates
  {
    if dates == [] then None
    else if dates[|dates| - 1] == d then Some(|dates| - 1)
    else BarOn(dates[..|dates| - 1], d)
  }

  /** Of increasing dates there is one bar on a date, and it is found. */
  lemma {:induction false} BarOnIs(dates: seq<int>, d: int, j: nat)
    requires Increasing(dates) && j < |dates| && dates[j] == d
    ensures BarOn(dates, d) == Some(j)
  {
    if dates[|dates| - 1] != d {
      BarOnIs(dates[..|dates| - 1], d, j);
    }
  }

  lemma {:induction false} InsertIs(s: seq<int>, d: int)
    requires Increasing(s)
    ensures Increasing(Insert(s, d))
    ensures forall x :: x in Insert(s, d) <==> x in s || x == d
  {
    if s == [] || s[|s| - 1] <= d {
    } else {
      var front, last := s[..|s| - 1], s[|s| - 1];
      InsertIs(front, d);
      assert s == front + [last];
      var t := Insert(front, d);
      forall i | 0 <= i < |t|
        ensures t[i] < last
      {
        assert t[i] in t;
      }
      assert forall x :: x in t + [last] <==> x in t || x == last;
    }
  }

  lemma {:induction false} InsertAllIs(s: seq<int>, dates: seq<int>)
    requires Increasing(s)
    ensures Increasing(InsertAll(s, dates))
    ensures forall x :: x in InsertAll(s, dates) <==> x in s || x in dates
  {
    if dates != [] {
      InsertAllIs(s, dates[..|dates| - 1]);
      InsertIs(InsertAll(s, dates[..|dates| - 1]), dates[|dates| - 1]);
      assert dates == dates[..|dates| - 1] + [dates[|dates| - 1]];
    }
  }

  /** The calendar is increasing and holds exactly the days on which some asset has a bar. */
  lemma {:induction false} CalendarIs(dates: seq<seq<int>>)
    ensures Increasing(Calendar(dates))
    ensures forall x :: x in Calendar(dates) <==> exists a :: 0 <= a < |dates| && x in dates[a]
  {
    if dates != [] {
      var front, last := dates[..|dates| - 1], dates[|dates| - 1];
      CalendarIs(front);
      InsertAllIs(Calendar(front), last);
      assert forall a :: 0 <= a < |front| ==> dates[a] == front[a];
    }
  }
}
