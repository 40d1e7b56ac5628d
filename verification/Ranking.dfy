/**
 Ranking candidates by a key: a stable sort, smallest key first, of which the first
 few are taken. The order of the result is fixed by key and original place.
 */
module Ranking {
  /** Insertion behind every element whose key is not larger. */
  function Insert<T>(key: T -> real, s: seq<T>, x: T): seq<T> {
    if s == [] || key(s[|s| - 1]) <= key(x) then s + [x]
    else Insert(key, s[..|s| - 1], x) + [s[|s| - 1]]
  }

  function Ranked<T>(key: T -> real, s: seq<T>): seq<T> {
    if s == [] then [] else Insert(key, Ranked(key, s[..|s| - 1]), s[|s| - 1])
  }

  /** How many of so many are taken if n are wanted. */
  function Taken(n: int, available: nat): (t: nat)
    ensures t <= available
  {
    if n <= 0 then 0 else if n < available then n else available
  }

  function Best<T>(key: T -> real, s: seq<T>, n: int): seq<T> {
    var ranked := Ranked(key, s);
    ranked[..Taken(n, |ranked|)]
  }

  // ── What the ranking is ─────────────────────────────────────────────────

  /** Smaller key first; of equal keys, the one that came first. */
  predicate Precedes<T>(key: T -> real, place: T -> int, x: T, y: T) {
    key(x) < key(y) || (key(x) == key(y) && place(x) < place(y))
  }

  ghost predicate InOrder<T>(key: T -> real, place: T -> int, s: seq<T>) {
    forall i, j :: 0 <= i < j < |s| ==> Precedes(key, place, s[i], s[j])
  }

  /** The elements stand in the order of their places. */
  ghost predicate Placed<T>(place: T -> int, s: seq<T>) {
    forall i, j :: 0 <= i < j < |s| ==> place(s[i]) < place(s[j])
  }

  lemma {:induction false} InsertIs<T>(key: T -> real, s: seq<T>, x: T)
    ensures multiset(Insert(key, s, x)) == multiset(s) + multiset{x}
  {
    if s == [] || key(s[|s| - 1]) <= key(x) {
    } else {
      InsertIs(key, s[..|s| - 1], x);
      assert s == s[..|s| - 1] + [s[|s| - 1]];
    }
  }

  /** Ranking reorders and does nothing else. */
  lemma {:induction false} RankedIs<T>(key: T -> real, s: seq<T>)
    ensures multiset(Ranked(key, s)) == multiset(s)
  {
    if s != [] {
      RankedIs(key, s[..|s| - 1]);
      InsertIs(key, Ranked(key, s[..|s| - 1]), s[|s| - 1]);
      assert s == s[..|s| - 1] + [s[|s| - 1]];
    }
  }

  lemma SameMembers<T>(s: seq<T>, t: seq<T>)
    requires multiset(s) == multiset(t)
    ensures |s| == |t|
    ensures forall x :: x in s ==> x in t
    ensures forall x :: x in t ==> x in s
  {
    assert |s| == |multiset(s)| && |t| == |multiset(t)|;
    assert forall x :: x in s ==> x in multiset(t);
    assert forall x :: x in t ==> x in multiset(s);
  }

  lemma {:induction false} InsertInOrder<T>(key: T -> real, place: T -> int, s: seq<T>, x: T)
    requires InOrder(key, place, s) && forall y :: y in s ==> place(y) < place(x)
    ensures InOrder(key, place, Insert(key, s, x))
  {
    if s == [] {
    } else if key(s[|s| - 1]) <= key(x) {
      forall i | 0 <= i < |s|
        ensures Precedes(key, place, s[i], x)
      {
        assert s[i] in s && (i < |s| - 1 ==> Precedes(key, place, s[i], s[|s| - 1]));
      }
    } else {
      var front, last := s[..|s| - 1], s[|s| - 1];
      InsertInOrder(key, place, front, x);
      InsertIs(key, front, x);
      var t := Insert(key, front, x);
      forall i | 0 <= i < |t|
        ensures Precedes(key, place, t[i], last)
      {
        assert t[i] in multiset(t);
        assert t[i] in front || t[i] == x;
      }
    }
  }

  /** Sorted by key, and stable. */
  lemma {:induction false} RankedInOrder<T>(key: T -> real, place: T -> int, s: seq<T>)
    requires Placed(place, s)
    ensures InOrder(key, place, Ranked(key, s))
  {
    if s != [] {
      var front := s[..|s| - 1];
      RankedInOrder(key, place, front);
      RankedIs(key, front);
      SameMembers(Ranked(key, front), front);
      forall y | y in front
        ensures place(y) < place(s[|s| - 1])
      {
        var i :| 0 <= i < |front| && front[i] == y;
        assert s[i] == y;
      }
      InsertInOrder(key, place, Ranked(key, front), s[|s| - 1]);
    }
  }

  /**
   Exactly as many as wanted, if there are so many; all of them candidates, in order;
   and each goes before every candidate left out.
   */
  lemma BestAre<T>(key: T -> real, place: T -> int, s: seq<T>, n: int)
    requires Placed(place, s)
    ensures |Best(key, s, n)| == Taken(n, |s|)
    ensures InOrder(key, place, Best(key, s, n))
    ensures forall x :: x in Best(key, s, n) ==> x in s
    ensures forall x, y :: x in Best(key, s, n) && y in s && y !in Best(key, s, n) ==> Precedes(key, place, x, y)
  {
    var ranked := Ranked(key, s);
    RankedInOrder(key, place, s);
    RankedIs(key, s);
    SameMembers(ranked, s);
    var best := Best(key, s, n);
    assert forall x :: x in best ==> x in ranked;
    assert forall k :: 0 <= k < |best| ==> ranked[k] in best;
    hide Ranked, Precedes;
    forall x, y | x in best && y in s && y !in best
      ensures Precedes(key, place, x, y)
    {
      var i :| 0 <= i < |best| && best[i] == x;
      assert y in ranked;
      var j :| 0 <= j < |ranked| && ranked[j] == y;
    }
  }
}
